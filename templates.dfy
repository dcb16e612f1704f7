/**
 * The two page templates. Each takes the map from position to rendered unit (built elsewhere from
 * the enabled content boxes), the configuration's flags and the universal components, and lays out
 * a fixed sequence of regions, each shown or hidden by a condition. The only state is whether the
 * domain-inquiry modal is open.
 */
module Templates {
  import opened Wrappers
  import opened Strings

  /** What a template reads from the configuration and its props. */
  datatype PageInputs<U> = PageInputs(
    domainName: string,
    status: string,
    terminal: bool,
    inquiryControl: Option<bool>,   // controls.forms.domainInquiry
    forSale: Option<bool>,          // domain.forSale
    emailControl: Option<bool>,     // controls.forms.emailCapture
    showEmailCapture: Option<bool>, // features.showEmailCapture
    boxes: map<string, U>,          // position -> rendered unit
    emailCapture: Option<U>,        // universalComponents.emailCapture
    domainInquiry: Option<U>,       // universalComponents.domainInquiry
    year: int)

  /** `control ?? legacy` used as a condition: an explicit control value wins, even `false`. */
  function ResolveFlag(control: Option<bool>, legacy: Option<bool>): (b: bool)
    ensures control.Some? ==> b == control.value
    ensures control.None? ==> b == (legacy == Some(true))
  {
    match control
    case Some(c) => c
    case None => legacy == Some(true)
  }

  /** Shows the for-sale button and lets the modal open. */
  function ForSaleGate<U>(inp: PageInputs<U>): bool {
    ResolveFlag(inp.inquiryControl, inp.forSale)
  }

  /** Shows the email capture. */
  function EmailGate<U>(inp: PageInputs<U>): bool {
    ResolveFlag(inp.emailControl, inp.showEmailCapture)
  }

  /** The status badge: "COMING SOON" for `coming_soon`, otherwise the status upper-cased. */
  function StatusBadge(status: string): (b: string)
    ensures status == "coming_soon" ==> b == "COMING SOON"
    ensures status != "coming_soon" ==> b == Upper(status)
  {
    if status == "coming_soon" then "COMING SOON" else Upper(status)
  }

  /** The header title: the domain name upper-cased, in brackets for the terminal theme. */
  function HeaderTitle<U>(inp: PageInputs<U>): string {
    if inp.terminal then "[" + Upper(inp.domainName) + "]" else Upper(inp.domainName)
  }

  datatype FooterContent<U> = FooterBox(unit: U) | Copyright(year: int, name: string)

  /** The regions a page can show. */
  datatype Region<U> =
    | Header(title: string, badge: string, forSaleButton: bool)
    | Slot(position: string, unit: U)
    | LowerContent(unit: U, topBorder: bool)
    | EmailCapture(component: Option<U>)
    | Main(mainUnit: Option<U>)
    | Footer(content: FooterContent<U>)
    | DomainModal(inquiry: Option<U>)

  /** The places of a template's layout: fixed sections, and slots filled from a box position. */
  datatype Part = HeaderPart | SlotPart(pos: string) | LowerPart | EmailPart | MainPart | FooterPart | ModalPart

  /** The place a region occupies. */
  function PartOf<U>(r: Region<U>): Part {
    match r
    case Header(_, _, _) => HeaderPart
    case Slot(p, _) => SlotPart(p)
    case LowerContent(_, _) => LowerPart
    case EmailCapture(_) => EmailPart
    case Main(_) => MainPart
    case Footer(_) => FooterPart
    case DomainModal(_) => ModalPart
  }

  /** The footer: the `footer` unit if there is one, otherwise the copyright line with the domain name. */
  function FooterOf<U>(inp: PageInputs<U>): (f: FooterContent<U>)
    ensures "footer" in inp.boxes ==> f == FooterBox(inp.boxes["footer"])
    ensures "footer" !in inp.boxes ==> f == Copyright(inp.year, inp.domainName)
  {
    if "footer" in inp.boxes then FooterBox(inp.boxes["footer"]) else Copyright(inp.year, inp.domainName)
  }

  /** The regions given by `f` for the parts of `order`, in that order, skipping parts without one. */
  function Collect<R>(order: seq<Part>, f: Part -> Option<R>): seq<R>
    decreases |order|
  {
    if |order| == 0 then []
    else (if f(order[0]).Some? then [f(order[0]).value] else []) + Collect(order[1..], f)
  }

  /** The parts of `order` for which `f` gives a region, in order. */
  function PresentParts<R>(order: seq<Part>, f: Part -> Option<R>): seq<Part>
    decreases |order|
  {
    if |order| == 0 then []
    else (if f(order[0]).Some? then [order[0]] else []) + PresentParts(order[1..], f)
  }

  function Parts<U>(rs: seq<Region<U>>): seq<Part> {
    seq(|rs|, i requires 0 <= i < |rs| => PartOf(rs[i]))
  }

  /** A page lists exactly the present regions, in the template's order. */
  lemma {:induction false} CollectParts<U>(order: seq<Part>, f: Part -> Option<Region<U>>)
    requires forall n :: f(n).Some? ==> PartOf(f(n).value) == n
    ensures Parts(Collect(order, f)) == PresentParts(order, f)
    decreases |order|
  {
    if |order| > 0 {
      CollectParts(order[1..], f);
      var head: seq<Region<U>> := if f(order[0]).Some? then [f(order[0]).value] else [];
      assert Collect(order, f) == head + Collect(order[1..], f);
      assert Parts(head + Collect(order[1..], f)) == Parts(head) + Parts(Collect(order[1..], f));
    }
  }

  /** A region is on the page iff some part of the order gives it. */
  lemma {:induction false} CollectMember<R>(order: seq<Part>, f: Part -> Option<R>, r: R)
    ensures r in Collect(order, f) <==> exists n :: n in order && f(n) == Some(r)
    decreases |order|
  {
    if |order| > 0 {
      CollectMember(order[1..], f, r);
      assert order == [order[0]] + order[1..];
      assert forall n :: n in order <==> n == order[0] || n in order[1..];
    }
  }

  /** Two region functions that agree on the order's parts give the same page. */
  lemma {:induction false} CollectAgree<R>(order: seq<Part>, f: Part -> Option<R>, g: Part -> Option<R>)
    requires forall i :: 0 <= i < |order| ==> f(order[i]) == g(order[i])
    ensures Collect(order, f) == Collect(order, g)
    decreases |order|
  {
    if |order| > 0 {
      CollectAgree(order[1..], f, g);
    }
  }

  // ---------------------------------------------------------------- HeroTemplate

  /** The hero template's layout, top to bottom: header, hero section (top banner, alert, headline),
   *  main column (three content slots around a native ad, then the email capture), sidebar, lower
   *  sections (feature grid, mid banner, lower content, dynamic feed, bottom banner), footer, modal. */
  function HeroPartAt(i: nat): Part {
    match i
    case 0 => HeaderPart
    case 1 => SlotPart("ad-top-banner")
    case 2 => SlotPart("ad-alert")
    case 3 => SlotPart("hero-headline")
    case 4 => SlotPart("main-content")
    case 5 => SlotPart("primary-content")
    case 6 => SlotPart("ad-native-1")
    case 7 => SlotPart("secondary-content")
    case 8 => EmailPart
    case 9 => SlotPart("sidebar-1")
    case 10 => SlotPart("ad-sidebar")
    case 11 => SlotPart("sidebar-2")
    case 12 => SlotPart("feature-grid")
    case 13 => SlotPart("ad-mid-banner")
    case 14 => LowerPart
    case 15 => SlotPart("dynamic-feed")
    case 16 => SlotPart("ad-bottom-banner")
    case 17 => FooterPart
    case _ => ModalPart
  }

  function HeroOrder(): seq<Part> {
    seq(19, i requires 0 <= i < 19 => HeroPartAt(i))
  }

  /** The region the hero template shows in one part of its layout, if any. */
  function HeroRegion<U>(n: Part, inp: PageInputs<U>, modalOpen: bool): (r: Option<Region<U>>)
    ensures r.Some? ==> PartOf(r.value) == n
  {
    match n
    case HeaderPart => Some(Header(HeaderTitle(inp), StatusBadge(inp.status), ForSaleGate(inp)))
    case SlotPart(p) => if p in inp.boxes then Some(Slot(p, inp.boxes[p])) else None
    case EmailPart =>
      if EmailGate(inp) && inp.emailCapture.Some? then Some(EmailCapture(inp.emailCapture)) else None
    case LowerPart =>
      if "lower-content" in inp.boxes
      then Some(LowerContent(inp.boxes["lower-content"], "ad-mid-banner" !in inp.boxes))
      else None
    case FooterPart => Some(Footer(FooterOf(inp)))
    case ModalPart => if modalOpen && ForSaleGate(inp) then Some(DomainModal(inp.domainInquiry)) else None
    case MainPart => None
  }

  /** `HeroTemplate`: the regions shown, in the fixed order, each exactly when its condition holds. */
  function HeroPage<U>(inp: PageInputs<U>, modalOpen: bool): (page: seq<Region<U>>)
    ensures Parts(page) == PresentParts(HeroOrder(), n => HeroRegion(n, inp, modalOpen))
  {
    CollectParts(HeroOrder(), n => HeroRegion(n, inp, modalOpen));
    Collect(HeroOrder(), n => HeroRegion(n, inp, modalOpen))
  }

  /** What a region that the hero template gives under its own part says about the inputs. */
  lemma HeroRegionFacts<U>(inp: PageInputs<U>, modalOpen: bool, r: Region<U>)
    requires HeroRegion(PartOf(r), inp, modalOpen) == Some(r)
    ensures r.Slot? ==> r.position in inp.boxes && inp.boxes[r.position] == r.unit
    ensures r.EmailCapture? ==> EmailGate(inp) && r.component.Some? && r.component == inp.emailCapture
    ensures r.LowerContent? ==>
      "lower-content" in inp.boxes && inp.boxes["lower-content"] == r.unit && (r.topBorder <==> "ad-mid-banner" !in inp.boxes)
    ensures r.DomainModal? ==> modalOpen && ForSaleGate(inp) && r.inquiry == inp.domainInquiry
    ensures !r.Main?
  {
  }

  /** A region on the hero page is the one its own part gives. */
  lemma HeroPlaced<U>(inp: PageInputs<U>, modalOpen: bool, r: Region<U>)
    requires r in HeroPage(inp, modalOpen)
    ensures HeroRegion(PartOf(r), inp, modalOpen) == Some(r)
    ensures r.Slot? ==> r.position in inp.boxes && inp.boxes[r.position] == r.unit
    ensures r.EmailCapture? ==> EmailGate(inp) && r.component.Some? && r.component == inp.emailCapture
    ensures r.LowerContent? ==>
      "lower-content" in inp.boxes && inp.boxes["lower-content"] == r.unit && (r.topBorder <==> "ad-mid-banner" !in inp.boxes)
    ensures r.DomainModal? ==> modalOpen && ForSaleGate(inp) && r.inquiry == inp.domainInquiry
  {
    var f := n => HeroRegion(n, inp, modalOpen);
    CollectMember(HeroOrder(), f, r);
    var n :| n in HeroOrder() && f(n) == Some(r);
    assert HeroRegion(n, inp, modalOpen) == Some(r);
    HeroRegionFacts(inp, modalOpen, r);
  }

  /** A region that a part of the hero layout gives is on the hero page. */
  lemma HeroShows<U>(inp: PageInputs<U>, modalOpen: bool, i: nat, r: Region<U>)
    requires i < 19 && HeroRegion(HeroPartAt(i), inp, modalOpen) == Some(r)
    ensures r in HeroPage(inp, modalOpen)
  {
    var f := n => HeroRegion(n, inp, modalOpen);
    assert HeroOrder()[i] == HeroPartAt(i);
    assert f(HeroPartAt(i)) == Some(r);
    CollectMember(HeroOrder(), f, r);
  }

  /** Each hero slot is on the page iff the map has a unit for its position, and then it shows that unit. */
  lemma HeroSlotShown<U>(inp: PageInputs<U>, modalOpen: bool, p: string, u: U)
    requires SlotPart(p) in HeroOrder()
    ensures Slot(p, u) in HeroPage(inp, modalOpen) <==> p in inp.boxes && inp.boxes[p] == u
  {
    if p in inp.boxes && inp.boxes[p] == u {
      var i :| 0 <= i < |HeroOrder()| && HeroOrder()[i] == SlotPart(p);
      HeroShows(inp, modalOpen, i, Slot(p, u));
    }
    if Slot(p, u) in HeroPage(inp, modalOpen) {
      HeroPlaced(inp, modalOpen, Slot(p, u));
    }
  }

  /** The email capture is on the hero page iff its gate holds and the component exists. */
  lemma HeroEmailCaptureShown<U>(inp: PageInputs<U>, modalOpen: bool, c: Option<U>)
    ensures EmailCapture(c) in HeroPage(inp, modalOpen)
      <==> ResolveFlag(inp.emailControl, inp.showEmailCapture) && c.Some? && c == inp.emailCapture
  {
    if EmailGate(inp) && c.Some? && c == inp.emailCapture {
      assert HeroRegion(HeroPartAt(8), inp, modalOpen) == Some(EmailCapture(c));
      HeroShows(inp, modalOpen, 8, EmailCapture(c));
    }
    if EmailCapture(c) in HeroPage(inp, modalOpen) {
      HeroPlaced(inp, modalOpen, EmailCapture(c));
    }
  }

  /** The lower-content section drops its top border exactly when the mid-page banner is present. */
  lemma HeroLowerContentBorder<U>(inp: PageInputs<U>, modalOpen: bool, u: U, border: bool)
    requires LowerContent(u, border) in HeroPage(inp, modalOpen)
    ensures border <==> "ad-mid-banner" !in inp.boxes
    ensures "lower-content" in inp.boxes && inp.boxes["lower-content"] == u
  {
    HeroPlaced(inp, modalOpen, LowerContent(u, border));
  }

  /** The hero footer shows the `footer` unit, or else the copyright line. */
  lemma HeroFooter<U>(inp: PageInputs<U>, modalOpen: bool)
    ensures Footer(FooterOf(inp)) in HeroPage(inp, modalOpen)
  {
    HeroShows(inp, modalOpen, 17, Footer(FooterOf(inp)));
  }

  /** Units at positions the hero template never reads (such as main, additional and ad-native-2) change nothing. */
  lemma HeroIgnoresOtherPositions<U>(inp: PageInputs<U>, boxes': map<string, U>, modalOpen: bool)
    requires forall p :: SlotPart(p) in HeroOrder() || p == "lower-content" || p == "footer" ==>
      (p in boxes' <==> p in inp.boxes) && (p in boxes' ==> boxes'[p] == inp.boxes[p])
    ensures HeroPage(inp.(boxes := boxes'), modalOpen) == HeroPage(inp, modalOpen)
  {
    var inp' := inp.(boxes := boxes');
    forall i | 0 <= i < |HeroOrder()|
      ensures HeroRegion(HeroOrder()[i], inp', modalOpen) == HeroRegion(HeroOrder()[i], inp, modalOpen)
    {
      var n := HeroOrder()[i];
      if n.SlotPart? {
        assert HeroOrder()[i] == SlotPart(n.pos);
      } else if n == LowerPart {
        assert HeroOrder()[13] == SlotPart("ad-mid-banner");
      }
    }
    CollectAgree(HeroOrder(), n => HeroRegion(n, inp', modalOpen), n => HeroRegion(n, inp, modalOpen));
  }

  // ---------------------------------------------------------------- LandingTemplate

  /** The landing template's layout, top to bottom. */
  function LandingPartAt(i: nat): Part {
    match i
    case 0 => HeaderPart
    case 1 => SlotPart("ad-top-banner")
    case 2 => MainPart
    case 3 => EmailPart
    case 4 => SlotPart("additional")
    case 5 => FooterPart
    case _ => ModalPart
  }

  function LandingOrder(): seq<Part> {
    seq(7, i requires 0 <= i < 7 => LandingPartAt(i))
  }

  /** The region the landing template shows in one part of its layout, if any. */
  function LandingRegion<U>(n: Part, inp: PageInputs<U>, modalOpen: bool): (r: Option<Region<U>>)
    ensures r.Some? ==> PartOf(r.value) == n
  {
    match n
    case HeaderPart => Some(Header(HeaderTitle(inp), StatusBadge(inp.status), ForSaleGate(inp)))
    case SlotPart(p) => if p in inp.boxes then Some(Slot(p, inp.boxes[p])) else None
    case MainPart => Some(Main(if "main" in inp.boxes then Some(inp.boxes["main"]) else None))
    case EmailPart => if EmailGate(inp) then Some(EmailCapture(inp.emailCapture)) else None
    case FooterPart => Some(Footer(FooterOf(inp)))
    case ModalPart => if modalOpen && ForSaleGate(inp) then Some(DomainModal(inp.domainInquiry)) else None
    case LowerPart => None
  }

  /** `LandingTemplate`: the regions shown, in the fixed order, each exactly when its condition holds. */
  function LandingPage<U>(inp: PageInputs<U>, modalOpen: bool): (page: seq<Region<U>>)
    ensures Parts(page) == PresentParts(LandingOrder(), n => LandingRegion(n, inp, modalOpen))
  {
    CollectParts(LandingOrder(), n => LandingRegion(n, inp, modalOpen));
    Collect(LandingOrder(), n => LandingRegion(n, inp, modalOpen))
  }

  /** What a region that the landing template gives under its own part says about the inputs. */
  lemma LandingRegionFacts<U>(inp: PageInputs<U>, modalOpen: bool, r: Region<U>)
    requires LandingRegion(PartOf(r), inp, modalOpen) == Some(r)
    ensures r.Slot? ==> r.position in inp.boxes && inp.boxes[r.position] == r.unit
    ensures r.EmailCapture? ==> EmailGate(inp) && r.component == inp.emailCapture
    ensures r.Main? ==> r.mainUnit == if "main" in inp.boxes then Some(inp.boxes["main"]) else None
    ensures r.DomainModal? ==> modalOpen && ForSaleGate(inp) && r.inquiry == inp.domainInquiry
    ensures !r.LowerContent?
  {
  }

  /** A region on the landing page is the one its own part gives. */
  lemma LandingPlaced<U>(inp: PageInputs<U>, modalOpen: bool, r: Region<U>)
    requires r in LandingPage(inp, modalOpen)
    ensures LandingRegion(PartOf(r), inp, modalOpen) == Some(r)
    ensures r.Slot? ==> r.position in inp.boxes && inp.boxes[r.position] == r.unit
    ensures r.EmailCapture? ==> EmailGate(inp) && r.component == inp.emailCapture
    ensures r.DomainModal? ==> modalOpen && ForSaleGate(inp) && r.inquiry == inp.domainInquiry
  {
    var f := n => LandingRegion(n, inp, modalOpen);
    CollectMember(LandingOrder(), f, r);
    var n :| n in LandingOrder() && f(n) == Some(r);
    assert LandingRegion(n, inp, modalOpen) == Some(r);
    LandingRegionFacts(inp, modalOpen, r);
  }

  /** A region that a part of the landing layout gives is on the landing page. */
  lemma LandingShows<U>(inp: PageInputs<U>, modalOpen: bool, i: nat, r: Region<U>)
    requires i < 7 && LandingRegion(LandingPartAt(i), inp, modalOpen) == Some(r)
    ensures r in LandingPage(inp, modalOpen)
  {
    var f := n => LandingRegion(n, inp, modalOpen);
    assert LandingOrder()[i] == LandingPartAt(i);
    assert f(LandingPartAt(i)) == Some(r);
    CollectMember(LandingOrder(), f, r);
  }

  /** The `main` wrapper is always on the landing page, with the `main` unit if there is one. */
  lemma LandingMainAlwaysShown<U>(inp: PageInputs<U>, modalOpen: bool)
    ensures Main(if "main" in inp.boxes then Some(inp.boxes["main"]) else None) in LandingPage(inp, modalOpen)
  {
    LandingShows(inp, modalOpen, 2, Main(if "main" in inp.boxes then Some(inp.boxes["main"]) else None));
  }

  /** ad-top-banner and additional are on the landing page iff the map has a unit for them. */
  lemma LandingSlotShown<U>(inp: PageInputs<U>, modalOpen: bool, p: string, u: U)
    requires p == "ad-top-banner" || p == "additional"
    ensures Slot(p, u) in LandingPage(inp, modalOpen) <==> p in inp.boxes && inp.boxes[p] == u
  {
    if p in inp.boxes && inp.boxes[p] == u {
      LandingShows(inp, modalOpen, if p == "ad-top-banner" then 1 else 4, Slot(p, u));
    }
    if Slot(p, u) in LandingPage(inp, modalOpen) {
      LandingPlaced(inp, modalOpen, Slot(p, u));
    }
  }

  /** The landing email-capture wrapper is on the page iff its gate holds. */
  lemma LandingEmailCaptureShown<U>(inp: PageInputs<U>, modalOpen: bool)
    ensures EmailCapture(inp.emailCapture) in LandingPage(inp, modalOpen)
      <==> ResolveFlag(inp.emailControl, inp.showEmailCapture)
  {
    if EmailGate(inp) {
      LandingShows(inp, modalOpen, 3, EmailCapture(inp.emailCapture));
    }
    if EmailCapture(inp.emailCapture) in LandingPage(inp, modalOpen) {
      LandingPlaced(inp, modalOpen, EmailCapture(inp.emailCapture));
    }
  }

  /** The landing footer shows the `footer` unit, or else the copyright line. */
  lemma LandingFooter<U>(inp: PageInputs<U>, modalOpen: bool)
    ensures Footer(FooterOf(inp)) in LandingPage(inp, modalOpen)
  {
    LandingShows(inp, modalOpen, 5, Footer(FooterOf(inp)));
  }

  /** Only ad-top-banner, main, additional and footer are read: every other position changes nothing. */
  lemma LandingIgnoresOtherPositions<U>(inp: PageInputs<U>, boxes': map<string, U>, modalOpen: bool)
    requires forall p :: p == "ad-top-banner" || p == "main" || p == "additional" || p == "footer" ==>
      (p in boxes' <==> p in inp.boxes) && (p in boxes' ==> boxes'[p] == inp.boxes[p])
    ensures LandingPage(inp.(boxes := boxes'), modalOpen) == LandingPage(inp, modalOpen)
  {
    var inp' := inp.(boxes := boxes');
    forall i | 0 <= i < |LandingOrder()|
      ensures LandingRegion(LandingOrder()[i], inp', modalOpen) == LandingRegion(LandingOrder()[i], inp, modalOpen)
    {
      assert LandingOrder()[i] == LandingPartAt(i);
    }
    CollectAgree(LandingOrder(), n => LandingRegion(n, inp', modalOpen), n => LandingRegion(n, inp, modalOpen));
  }

  // ---------------------------------------------------------------- the modal toggle

  /** The `showDomainModal` state both templates keep. */
  class DomainModalToggle {
    var open: bool

    /** `useState(false)` */
    constructor()
      ensures !open
    {
      open := false;
    }

    /** The for-sale button's click handler. */
    method ClickForSale()
      modifies this
      ensures open
    {
      open := true;
    }

    /** A click on the backdrop or on the Close button. */
    method Close()
      modifies this
      ensures !open
    {
      open := false;
    }

    /** The modal is on screen iff it was opened and the for-sale gate holds. */
    predicate Visible<U>(inp: PageInputs<U>)
      reads this
    {
      open && ForSaleGate(inp)
    }
  }

  /** Once opened, the modal shows on the hero page exactly when the for-sale gate holds. */
  lemma HeroModalShown<U>(inp: PageInputs<U>, modalOpen: bool)
    ensures DomainModal(inp.domainInquiry) in HeroPage(inp, modalOpen)
      <==> modalOpen && ResolveFlag(inp.inquiryControl, inp.forSale)
  {
    var r := DomainModal(inp.domainInquiry);
    if modalOpen && ForSaleGate(inp) {
      assert HeroRegion(HeroPartAt(18), inp, modalOpen) == Some(r);
      HeroShows(inp, modalOpen, 18, r);
    }
    if r in HeroPage(inp, modalOpen) {
      HeroPlaced(inp, modalOpen, r);
    }
  }

  /** Once opened, the modal shows on the landing page exactly when the for-sale gate holds. */
  lemma LandingModalShown<U>(inp: PageInputs<U>, modalOpen: bool)
    ensures DomainModal(inp.domainInquiry) in LandingPage(inp, modalOpen)
      <==> modalOpen && ResolveFlag(inp.inquiryControl, inp.forSale)
  {
    var r := DomainModal(inp.domainInquiry);
    if modalOpen && ForSaleGate(inp) {
      LandingShows(inp, modalOpen, 6, r);
    }
    if r in LandingPage(inp, modalOpen) {
      LandingPlaced(inp, modalOpen, r);
    }
  }
}
