/**
 * The domain8 integration: the status a domain has in the domain8 pipeline (its phase, whether a
 * higher tier is live, so that the parking page — tier 0 — must step aside, and the brand
 * colours domain8 designed for it), the list of domains domain8 knows, and the configuration
 * loader that merges those brand colours into a parking configuration. The file system is an
 * input: a directory is None when it does not exist, and a file is the value its content parsed
 * to.
 */
module Domain8 {
  import opened Wrappers
  import opened Strings
  import opened Json

  /** The domain8 directory of one domain: its `status.json` and `03-branding/brand-visual.json`,
   *  each None when missing or when it could not be read or parsed, and whether it has a
   *  `website` directory. */
  datatype Domain8Dir = Domain8Dir(status: Option<Json>, brand: Option<Json>, hasWebsite: bool)

  /** What `checkDomain8Status` reports: a domain domain8 does not know leaves tier 0 enabled;
   *  a known one reports its phase and status (`'unknown'` by default), whether tier 0 is
   *  enabled, its brand colours (None is `null`) and whether it has a website. */
  datatype Domain8Status =
    | Absent
    | Known(phase: Json, status: Json, tier0Enabled: bool, hasBrand: bool, brandColors: Option<Json>, hasWebsite: bool)
  {
    /** The `tier0Enabled` member, which is `true` for a domain domain8 does not know. */
    predicate AllowsTier0() {
      Absent? || tier0Enabled
    }

    /** The `brandColors` member, `undefined` for a domain domain8 does not know. */
    function Brand(): Option<Json> {
      if Known? then brandColors else None
    }
  }

  /** `phase?.includes(word)` where only its truthiness matters (`undefined` is read as false): a
   *  string is searched for the word, an array for an element equal to it; `null` and
   *  `undefined` short-circuit, and every other value has no `includes` to call. */
  function Includes(phase: Option<Json>, word: string): (r: Result<bool>)
    ensures r.Failure? <==> !Nullish(phase) && !phase.value.JStr? && !phase.value.JArr?
    ensures r.Success? && phase.Some? && phase.value.JStr? ==> r.value == Contains(phase.value.s, word)
    ensures r.Success? && phase.Some? && phase.value.JArr? ==> r.value == (JStr(word) in phase.value.items)
    ensures Nullish(phase) ==> r == Success(false)
  {
    if Nullish(phase) then Success(false)
    else match phase.value
      case JStr(s) => Success(Contains(s, word))
      case JArr(items) => Success(JStr(word) in items)
      case _ => Failure("TypeError")
  }

  /** `isHigherTierLive`: the phase mentions `live` or `production`, or the status is
   *  `'deployed'`; the second `includes` is only called when the first found nothing. */
  function HigherTierLive(status: Option<Json>): (r: Result<bool>)
    ensures var phase := OptProp(status, "current_phase");
      r.Failure? <==> !Nullish(phase) && !phase.value.JStr? && !phase.value.JArr?
    ensures var phase := OptProp(status, "current_phase");
      phase.Some? && phase.value.JStr? ==>
        r == Success(Contains(phase.value.s, "live") || Contains(phase.value.s, "production")
                     || OptProp(status, "status") == Some(JStr("deployed")))
    ensures var phase := OptProp(status, "current_phase");
      phase.Some? && phase.value.JArr? ==>
        r == Success(JStr("live") in phase.value.items || JStr("production") in phase.value.items
                     || OptProp(status, "status") == Some(JStr("deployed")))
    ensures Nullish(OptProp(status, "current_phase")) ==> r == Success(OptProp(status, "status") == Some(JStr("deployed")))
  {
    var phase := OptProp(status, "current_phase");
    var live :- Includes(phase, "live");
    if live then Success(true)
    else
      // the phase was searched once already, so the second search cannot throw
      var production := Includes(phase, "production").value;
      Success(production || OptProp(status, "status") == Some(JStr("deployed")))
  }

  /** `status?.tier0?.enabled === false` */
  predicate ExplicitlyDisabled(status: Option<Json>) {
    OptProp(OptProp(status, "tier0"), "enabled") == Some(JBool(false))
  }

  /** `o?.[0]`: the first element of an array, the first character of a string, the member `"0"`
   *  of an object; undefined on every other value. */
  function FirstElement(o: Option<Json>): (r: Option<Json>)
    ensures Nullish(o) ==> r.None?
    ensures o.Some? && o.value.JArr? ==> r == (if |o.value.items| > 0 then Some(o.value.items[0]) else None)
  {
    if Nullish(o) then None
    else match o.value
      case JArr(items) => if |items| > 0 then Some(items[0]) else None
      case JStr(s) => if |s| > 0 then Some(JStr([s[0]])) else None
      case JObj(fs) => Lookup(fs, "0")
      case _ => None
  }

  /** The brand colours read from a parsed `brand-visual.json`: the primary and secondary hex
   *  codes of its palette, which throw when a value on the way is missing, and the hex code of
   *  the first accent, which does not. Members read as `undefined` are left out. */
  function BrandColorsOf(brandVisual: Json): (r: Result<Json>)
    ensures r.Success? ==> r.value.JObj?
  {
    var palette :- GetAt(Some(brandVisual), ["color_palette"]);
    var primary :- GetAt(palette, ["primary", "hex"]);
    var secondary :- GetAt(palette, ["secondary", "hex"]);
    var accent := OptProp(FirstElement(OptProp(palette, "accent")), "hex");
    Success(Obj([("primary", primary), ("secondary", secondary), ("accent", accent)]))
  }

  /** The brand colours of a domain directory: an error reading them is caught, and they stay `null`. */
  function BrandColors(brand: Option<Json>): Option<Json> {
    if brand.None? then None
    else match BrandColorsOf(brand.value)
      case Success(c) => Some(c)
      case Failure(_) => None
  }

  /** `checkDomain8Status(domainName)` for the domain's directory (None when it does not exist).
   *  It rejects with the TypeError of a phase that has no `includes`. */
  function CheckDomain8Status(dir: Option<Domain8Dir>): (r: Result<Domain8Status>)
    ensures dir.None? ==> r == Success(Absent)
    ensures r.Success? && dir.Some? ==> r.value.Known? && r.value.hasWebsite == dir.value.hasWebsite
    ensures r.Success? && r.value.Known? ==> (r.value.hasBrand <==> r.value.brandColors.Some?)
  {
    match dir
    case None => Success(Absent)
    case Some(d) =>
      var brandColors := BrandColors(d.brand);
      var live :- HigherTierLive(d.status);
      var phase := Or(OptProp(d.status, "current_phase"), Some(JStr("unknown")));
      var status := Or(OptProp(d.status, "status"), Some(JStr("unknown")));
      Success(Known(phase.value, status.value, !live && !ExplicitlyDisabled(d.status),
                    brandColors.Some?, brandColors, d.hasWebsite))
  }

  /** A domain domain8 does not know leaves tier 0 enabled. */
  lemma AbsentDomainAllowsTier0()
    ensures CheckDomain8Status(None) == Success(Absent)
    ensures Success(Absent).value.AllowsTier0()
  {
  }

  /** The check rejects exactly when the phase is a value other than `null`, `undefined`, a
   *  string or an array. */
  lemma {:induction false} RejectsIff(d: Domain8Dir)
    ensures var phase := OptProp(d.status, "current_phase");
      CheckDomain8Status(Some(d)).Failure? <==> !Nullish(phase) && !phase.value.JStr? && !phase.value.JArr?
  {
    var phase := OptProp(d.status, "current_phase");
    assert HigherTierLive(d.status).Failure? <==> Includes(phase, "live").Failure?;
  }

  /** For a textual (or missing) phase, tier 0 is enabled exactly when the phase mentions neither
   *  `live` nor `production`, the status is not `'deployed'`, and `tier0.enabled` is not `false`. */
  lemma Tier0Rule(d: Domain8Dir)
    requires var phase := OptProp(d.status, "current_phase"); Nullish(phase) || phase.value.JStr?
    ensures CheckDomain8Status(Some(d)).Success?
    ensures var phase := OptProp(d.status, "current_phase");
      var text := if Nullish(phase) then "" else phase.value.s;
      CheckDomain8Status(Some(d)).value.tier0Enabled
      <==> !Contains(text, "live") && !Contains(text, "production")
           && OptProp(d.status, "status") != Some(JStr("deployed"))
           && OptProp(OptProp(d.status, "tier0"), "enabled") != Some(JBool(false))
  {
    var phase := OptProp(d.status, "current_phase");
    if Nullish(phase) {
      ContainsEmpty("live");
      ContainsEmpty("production");
    }
  }

  /** `"".includes(word)` is false for a non-empty word. */
  lemma ContainsEmpty(word: string)
    requires |word| > 0
    ensures !Contains("", word)
  {
    assert IndexOfFrom("", word, 0).None?;
  }

  /** A phase array makes a higher tier live when it holds the element `'live'` or `'production'`. */
  lemma PhaseArrayLive(d: Domain8Dir, items: seq<Json>)
    requires OptProp(d.status, "current_phase") == Some(JArr(items))
    requires JStr("live") in items || JStr("production") in items
    ensures CheckDomain8Status(Some(d)) == Success(CheckDomain8Status(Some(d)).value)
    ensures !CheckDomain8Status(Some(d)).value.tier0Enabled
  {
  }

  /** A phase and status that are missing or falsy are reported as `'unknown'`; truthy ones are
   *  reported as they are. */
  lemma PhaseDefaultsToUnknown(d: Domain8Dir)
    requires CheckDomain8Status(Some(d)).Success?
    ensures var st := CheckDomain8Status(Some(d)).value;
      var phase := OptProp(d.status, "current_phase");
      var status := OptProp(d.status, "status");
      (st.phase == if TruthyOpt(phase) then phase.value else JStr("unknown"))
      && (st.status == if TruthyOpt(status) then status.value else JStr("unknown"))
  {
  }

  /** A brand file whose palette has primary and secondary entries yields their hex codes and the
   *  hex code of the first accent, leaving out the ones that are missing. */
  lemma BrandFromPalette(brandVisual: Json, palette: Json, primary: Json, secondary: Json)
    requires Prop(brandVisual, "color_palette") == Some(palette)
    requires Prop(palette, "primary") == Some(primary) && Prop(palette, "secondary") == Some(secondary)
    requires primary != JNull && secondary != JNull
    ensures BrandColors(Some(brandVisual)) == Some(Obj([
      ("primary", Prop(primary, "hex")),
      ("secondary", Prop(secondary, "hex")),
      ("accent", OptProp(FirstElement(Prop(palette, "accent")), "hex"))]))
  {
    assert palette != JNull;
  }

  /** A brand file without a palette has no brand colours. */
  lemma NoPaletteNoBrand(d: Domain8Dir)
    requires d.brand.Some? && Nullish(Prop(d.brand.value, "color_palette"))
    requires CheckDomain8Status(Some(d)).Success?
    ensures !CheckDomain8Status(Some(d)).value.hasBrand
    ensures CheckDomain8Status(Some(d)).value.brandColors.None?
  {
    assert BrandColorsOf(d.brand.value).Failure?;
  }

  /** An entry of the domain8 directory: its name and whether it is a directory. */
  datatype Entry = Entry(name: string, isDirectory: bool)

  /** `getAllDomain8Domains()`: the directories whose name contains a dot, in directory order;
   *  nothing when the domain8 directory does not exist. */
  function AllDomain8Domains(root: Option<seq<Entry>>): (r: seq<string>)
    ensures root.None? ==> r == []
    ensures root.Some? ==> |r| <= |root.value|
    decreases if root.Some? then |root.value| else 0
  {
    match root
    case None => []
    case Some(items) =>
      if |items| == 0 then []
      else
        (if items[0].isDirectory && '.' in items[0].name then [items[0].name] else [])
        + AllDomain8Domains(Some(items[1..]))
  }

  /** A name is listed exactly when a directory of that name, containing a dot, is in the domain8
   *  directory. */
  lemma {:induction false} AllDomain8DomainsExactly(items: seq<Entry>, name: string)
    ensures name in AllDomain8Domains(Some(items))
      <==> exists i :: 0 <= i < |items| && items[i].name == name && items[i].isDirectory && '.' in name
    decreases |items|
  {
    if |items| > 0 {
      AllDomain8DomainsExactly(items[1..], name);
      if exists i :: 0 <= i < |items[1..]| && items[1..][i].name == name && items[1..][i].isDirectory && '.' in name {
        var i :| 0 <= i < |items[1..]| && items[1..][i].name == name && items[1..][i].isDirectory && '.' in name;
        assert items[i + 1] == items[1..][i];
      }
      if exists i :: 0 <= i < |items| && items[i].name == name && items[i].isDirectory && '.' in name {
        var i :| 0 <= i < |items| && items[i].name == name && items[i].isDirectory && '.' in name;
        if i > 0 {
          assert items[1..][i - 1] == items[i];
        }
      }
    }
  }

  /** What `loadDomainConfigWithBrand` returns. */
  datatype Loaded = Loaded(config: Json, domain8Status: Domain8Status)

  /** The brand colours are merged exactly when tier 0 is enabled, domain8 has brand colours and
   *  there is a (truthy) configuration. */
  predicate MergesBrand(config: Json, st: Domain8Status) {
    st.Known? && st.tier0Enabled && st.brandColors.Some? && Truthy(config)
  }

  /** `loadDomainConfigWithBrand(domainName)` for the parking configuration file (None when it
   *  does not exist, Some(None) when its content is not JSON, which rejects) and the domain8
   *  directory. The merge writes `config.template.brandColors` in module (strict) code. */
  function LoadDomainConfigWithBrand(configFile: Option<Option<Json>>, dir: Option<Domain8Dir>): (r: Result<Loaded>)
    ensures configFile == Some(None) ==> r.Failure?
    ensures r.Success? ==> Success(r.value.domain8Status) == CheckDomain8Status(dir)
  {
    var config :- match configFile
      case None => Success(JNull)
      case Some(None) => Failure("SyntaxError")
      case Some(Some(v)) => Success(v);
    var st :- CheckDomain8Status(dir);
    if MergesBrand(config, st) then
      var merged :- AssignAt(config, ["template", "brandColors"], st.brandColors.value, true);
      Success(Loaded(merged, st))
    else Success(Loaded(config, st))
  }

  /** A configuration whose template is an object gets the brand colours as
   *  `template.brandColors` when the merge conditions hold, and every other member of the
   *  configuration is left as it was. */
  lemma BrandMerged(config: Json, template: Json, dir: Option<Domain8Dir>, k: string)
    requires config.JObj? && Prop(config, "template") == Some(template) && template.JObj?
    requires CheckDomain8Status(dir).Success? && MergesBrand(config, CheckDomain8Status(dir).value)
    requires k != "template"
    ensures var r := LoadDomainConfigWithBrand(Some(Some(config)), dir);
      r.Success?
      && ValueAt(Some(r.value.config), ["template", "brandColors"]) == CheckDomain8Status(dir).value.brandColors
      && Prop(r.value.config, k) == Prop(config, k)
  {
    var bc := CheckDomain8Status(dir).value.brandColors.value;
    assert ObjectsAlong(config, ["template", "brandColors"]) by {
      assert ["template", "brandColors"][1..] == ["brandColors"];
    }
    AssignAtObjects(config, ["template", "brandColors"], bc, true);
    AssignAtOtherKeys(config, ["template", "brandColors"], bc, true, k);
  }

  /** Without the merge conditions the configuration is returned as it was read, `null` when
   *  there is no file. */
  lemma NoMergeKeepsConfig(configFile: Option<Option<Json>>, dir: Option<Domain8Dir>)
    requires configFile != Some(None) && CheckDomain8Status(dir).Success?
    requires var config := if configFile.None? then JNull else configFile.value.value;
      !MergesBrand(config, CheckDomain8Status(dir).value)
    ensures var config := if configFile.None? then JNull else configFile.value.value;
      LoadDomainConfigWithBrand(configFile, dir) == Success(Loaded(config, CheckDomain8Status(dir).value))
  {
  }

  /** A configuration without a template rejects when the brand would be merged. */
  lemma MissingTemplateRejects(config: Json, dir: Option<Domain8Dir>)
    requires config.JObj? && Nullish(Prop(config, "template"))
    requires CheckDomain8Status(dir).Success? && MergesBrand(config, CheckDomain8Status(dir).value)
    ensures LoadDomainConfigWithBrand(Some(Some(config)), dir).Failure?
  {
  }
}
