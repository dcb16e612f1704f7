/**
 * The standardisation of configurations to the new format. A configuration not yet in it is
 * rebuilt with an expanded domain section, generated SEO and content, the landing template with
 * fixed colours, its own controls (or defaults with ads off) and ads turned off.
 */
module StandardizeConfigs {
  import opened Wrappers
  import opened Strings
  import opened Json
  import opened ConfigLoader
  import opened ConfigScripts

  /** The files left alone, as already formatted. */
  const SkipFiles: seq<string> := ["brewhaus.com.au.json", "seosem.com.au.json"]

  /** The old themes that name a category (`themeMap`); each maps to itself. */
  const ThemeCategories: seq<string> :=
    ["ecommerce", "finance", "technology", "professional", "comparison", "creative"]

  /** `determineCategory(domain, oldTheme)`: an old theme that names a category wins (the theme is
   *  used as a property key, so its string form is looked up); otherwise the words of the domain
   *  name decide, in a fixed order, with `professional` as the default. */
  function DetermineCategory(domain: string, oldTheme: Option<Json>): (c: string)
    ensures c in ThemeCategories
  {
    var d := Lower(domain);
    if TruthyOpt(oldTheme) && StringOf(oldTheme.value) in ThemeCategories then StringOf(oldTheme.value)
    else if Contains(d, "shop") || Contains(d, "buy") || Contains(d, "sale") then "ecommerce"
    else if Contains(d, "finance") || Contains(d, "loan") || Contains(d, "money") then "finance"
    else if Contains(d, "tech") || Contains(d, "web") || Contains(d, "digital") then "technology"
    else if Contains(d, "compare") then "comparison"
    else "professional"
  }

  /** A theme naming a category decides it, whatever the domain. */
  lemma ThemeDecidesCategory(domain: string, theme: string)
    requires theme in ThemeCategories
    ensures DetermineCategory(domain, Some(JStr(theme))) == theme
  {
  }

  /** The themes `basic` and `terminal` name no category: the domain name decides, as if there
   *  were no theme. */
  lemma TemplateThemesDoNotDecide(domain: string, theme: string)
    requires theme == "basic" || theme == "terminal"
    ensures DetermineCategory(domain, Some(JStr(theme))) == DetermineCategory(domain, None)
  {
    assert theme !in ThemeCategories;
  }

  /** Without a deciding theme, the words are tried in order: shop, buy or sale make ecommerce,
   *  then finance, loan or money make finance, then tech, web or digital make technology, then
   *  compare makes comparison; a name with none of them is professional. */
  lemma CategoryFromName(domain: string, oldTheme: Option<Json>)
    requires !(TruthyOpt(oldTheme) && StringOf(oldTheme.value) in ThemeCategories)
    ensures var d := Lower(domain);
      var shop := Contains(d, "shop") || Contains(d, "buy") || Contains(d, "sale");
      var finance := Contains(d, "finance") || Contains(d, "loan") || Contains(d, "money");
      var tech := Contains(d, "tech") || Contains(d, "web") || Contains(d, "digital");
      var c := DetermineCategory(domain, oldTheme);
      && (c == "ecommerce" <==> shop)
      && (c == "finance" <==> !shop && finance)
      && (c == "technology" <==> !shop && !finance && tech)
      && (c == "comparison" <==> !shop && !finance && !tech && Contains(d, "compare"))
      && (c == "professional" <==> !shop && !finance && !tech && !Contains(d, "compare"))
      && c != "creative"
  {
  }

  /** `Australian Owned`, `Expert Service` and `Coming Soon`. */
  function Feature(title: string, description: string, icon: string): Json {
    JObj([("title", JStr(title)), ("description", JStr(description)), ("icon", JStr(icon))])
  }

  /** The fixed texts of the generated sections. */
  const HeroSubtitleTail := " in Australia. Discover premium services and solutions tailored for Australian businesses and consumers."
  const MainDescriptionTail := " is coming soon. We're building something special for the Australian market."
  const MainItems: Json := JArr([JStr("Premium services solutions"), JStr("Australian-focused content and services"),
                                 JStr("Expert guidance and support"), JStr("Innovative tools and resources")])
  const DomainDescriptionMiddle := " - Premium Australian domain for "
  const SeoDescriptionMiddle := " - your trusted source for "
  const SeoDescriptionTail := " solutions in Australia. Coming soon with premium services tailored for the Australian market."
  const EmailDescriptionHead := "Be the first to know when "
  const EmailDescriptionTail := " launches. Join our priority access list."
  const EmailSuccessMessage := "Success! You're on the list. We'll notify you when we launch."

  /** The hero headline of the generated content. */
  function HeroHeadline(name: string): Json {
    JObj([
      ("title", JStr("Welcome to " + name)),
      ("subtitle", JStr("Your destination for " + Lower(name) + HeroSubtitleTail))])
  }

  /** The main content of the generated content. */
  function MainContent(name: string): Json {
    JObj([
      ("title", JStr("What We Offer")),
      ("description", JStr(name + MainDescriptionTail)),
      ("items", MainItems)])
  }

  /** The features of the generated content. */
  const StandardFeatures: Json := JArr([
    Feature("Australian Owned", "Proudly Australian owned and operated", "\U{1F1E6}\U{1F1FA}"),
    Feature("Expert Service", "Professional support when you need it", "\U{2B50}"),
    Feature("Coming Soon", "Register for early access and updates", "\U{1F680}")])

  /** The call to action of the generated content. */
  const StandardCta: Json := JObj([
    ("text", JStr("Stay Updated")),
    ("buttonText", JStr("Get Early Access")),
    ("description", JStr("Be the first to know when we launch. Join our priority access list."))])

  /** `generateContent(domainName)`, called without keywords. */
  function GeneratedContent(domainName: string): Json {
    var name := DisplayName(domainName);
    JObj([
      ("heroHeadline", HeroHeadline(name)),
      ("mainContent", MainContent(name)),
      ("features", StandardFeatures),
      ("cta", StandardCta)])
  }

  /** The controls of a configuration that had none: only the email form and analytics on. */
  const DefaultControls: Json := JObj([
    ("forms", JObj([("emailCapture", JBool(true)), ("domainInquiry", JBool(false)), ("businessInquiry", JBool(false))])),
    ("ads", JObj([
      ("globalEnabled", JBool(false)),
      ("positions", JObj([
        ("topBanner", JBool(false)), ("alert", JBool(false)), ("sidebar", JBool(false)),
        ("midBanner", JBool(false)), ("bottomBanner", JBool(false)),
        ("native1", JBool(false)), ("native2", JBool(false))]))])),
    ("analytics", JBool(true))])

  /** The template every standardised configuration gets. */
  const StandardTemplate: Json := JObj([
    ("type", JStr("landing")), ("theme", JStr("basic")), ("colorMode", JStr("light")),
    ("brandColors", JObj([("primary", JStr("#2563eb")), ("secondary", JStr("#1e40af")), ("accent", JStr("#3b82f6"))]))])

  /** The expanded domain section. */
  function DomainSection(domainName: string, category: string): Json {
    var base := DomainBase(domainName);
    DomainShape(domainName, category,
      JArr([JStr(Join(Split(base, '-'), " ")), JStr("Australian business"), JStr("online services"), JStr(category)]),
      JStr(Words(base) + DomainDescriptionMiddle + category + " services."))
  }

  /** The layout of the `domain` section around its generated keywords and description. */
  function DomainShape(domainName: string, category: string, keywords: Json, description: Json): Json {
    JObj([
      ("name", JStr(domainName)), ("status", JStr("coming_soon")), ("forSale", JBool(false)),
      ("category", JStr(category)), ("keywords", keywords), ("description", description),
      ("logo", JStr("")), ("logoSize", JStr("large"))])
  }


  /** The SEO section. */
  function SeoSection(domainName: string, category: string): Json {
    var base := DomainBase(domainName);
    JObj([
      ("title", JStr(Words(base) + " | Australian " + Capitalize(category) + " Services")),
      ("description", JStr("Discover " + Join(Split(base, '-'), " ") + SeoDescriptionMiddle + category
        + SeoDescriptionTail)),
      ("keywords", JArr([JStr(Join(Split(base, '-'), " ")), JStr(category + " Australia"), JStr("Australian business"),
                         JStr(base + " services"), JStr("online platform Australia")]))])
  }

  /** The four standard landing boxes, filled with the generated content. */
  function StandardBoxes(domainName: string): Json {
    var content := GeneratedContent(domainName);
    JObj([
      ("main-headline", JObj([("type", JStr("headline")), ("position", JStr("main-headline")), ("content", content.fields[0].1)])),
      ("main-content", JObj([("type", JStr("content")), ("position", JStr("main-content")), ("content", content.fields[1].1)])),
      ("features-grid", JObj([("type", JStr("features-grid")), ("position", JStr("features-grid")),
                              ("content", JObj([("features", content.fields[2].1)]))])),
      ("cta-section", JObj([("type", JStr("cta")), ("position", JStr("cta-section")), ("content", content.fields[3].1)]))])
  }

  /** The email capture section. */
  function EmailCaptureSection(domainName: string): Json {
    JObj([
      ("headline", JStr("Get Early Access")),
      ("description", JStr(EmailDescriptionHead + Words(DomainBase(domainName)) + EmailDescriptionTail)),
      ("buttonText", JStr("Join Waitlist")),
      ("successMessage", JStr(EmailSuccessMessage))])
  }

  /** The layout of `newConfig`, around its computed sections. */
  function Assemble(domain: Json, seo: Json, controls: Json, boxes: Json, emailCapture: Json): Json {
    JObj([
      ("domain", domain),
      ("seo", seo),
      ("template", StandardTemplate),
      ("controls", controls),
      ("features", JObj([("showEmailCapture", JBool(true)), ("enableAnalytics", JBool(true))])),
      ("contentBoxes", boxes),
      ("ads", JObj([("enabled", JBool(false)), ("network", JStr("adsense"))])),
      ("emailCapture", emailCapture)])
  }

  /** `newConfig`, with the controls it ends up with: the eight sections in their fixed order, the
   *  standard template, and ads off on the adsense network. */
  function NewConfig(domainName: string, category: string, controls: Json): (c: Json)
    ensures c.JObj? && Keys(c.fields) == ["domain", "seo", "template", "controls", "features", "contentBoxes", "ads", "emailCapture"]
    ensures Prop(c, "template") == Some(StandardTemplate)
    ensures Prop(c, "controls") == Some(controls)
    ensures Prop(c, "ads") == Some(JObj([("enabled", JBool(false)), ("network", JStr("adsense"))]))
  {
    var domain, seo, boxes, email := DomainSection(domainName, category), SeoSection(domainName, category),
      StandardBoxes(domainName), EmailCaptureSection(domainName);
    AssembledKeys(domain, seo, controls, boxes, email);
    AssembledSections(domain, seo, controls, boxes, email);
    Assemble(domain, seo, controls, boxes, email)
  }

  /** Already in the new format: `domain` is a truthy object (`typeof` also says `object` of an
   *  array) with a truthy `name`. */
  predicate InNewFormat(config: Json) {
    var d := Prop(config, "domain");
    TruthyOpt(d) && (d.value.JObj? || d.value.JArr?) && TruthyOpt(Prop(d.value, "name"))
  }

  /** The domain name: the `domain` string when it is one, otherwise the file name without `.json`. */
  function DomainNameOf(fileName: string, config: Json): (r: string)
    ensures Prop(config, "domain").Some? && Prop(config, "domain").value.JStr? ==> r == Prop(config, "domain").value.s
    ensures !(Prop(config, "domain").Some? && Prop(config, "domain").value.JStr?) ==> r == ReplaceFirst(fileName, ".json", "")
  {
    match Prop(config, "domain")
    case Some(JStr(s)) => s
    case _ => ReplaceFirst(fileName, ".json", "")
  }

  /** The sections of a new configuration, in order. */
  lemma AssembledKeys(domain: Json, seo: Json, controls: Json, boxes: Json, emailCapture: Json)
    ensures Keys(Assemble(domain, seo, controls, boxes, emailCapture).fields)
      == ["domain", "seo", "template", "controls", "features", "contentBoxes", "ads", "emailCapture"]
  {
  }

  /** The sections a new configuration takes from its arguments, and its fixed template and ads. */
  lemma AssembledDomain(domain: Json, seo: Json, controls: Json, boxes: Json, emailCapture: Json)
    ensures Prop(Assemble(domain, seo, controls, boxes, emailCapture), "domain") == Some(domain)
  {
    LookupAt(Assemble(domain, seo, controls, boxes, emailCapture).fields, "domain", 0);
  }
  lemma AssembledTemplate(domain: Json, seo: Json, controls: Json, boxes: Json, emailCapture: Json)
    ensures Prop(Assemble(domain, seo, controls, boxes, emailCapture), "template") == Some(StandardTemplate)
  {
    LookupAt(Assemble(domain, seo, controls, boxes, emailCapture).fields, "template", 2);
  }
  lemma AssembledControls(domain: Json, seo: Json, controls: Json, boxes: Json, emailCapture: Json)
    ensures Prop(Assemble(domain, seo, controls, boxes, emailCapture), "controls") == Some(controls)
  {
    LookupAt(Assemble(domain, seo, controls, boxes, emailCapture).fields, "controls", 3);
  }
  lemma AssembledAds(domain: Json, seo: Json, controls: Json, boxes: Json, emailCapture: Json)
    ensures Prop(Assemble(domain, seo, controls, boxes, emailCapture), "ads") == Some(JObj([("enabled", JBool(false)), ("network", JStr("adsense"))]))
  {
    LookupAt(Assemble(domain, seo, controls, boxes, emailCapture).fields, "ads", 6);
  }

  /** The sections a new configuration takes from its arguments, with its fixed template and ads. */
  lemma AssembledSections(domain: Json, seo: Json, controls: Json, boxes: Json, emailCapture: Json)
    ensures var c := Assemble(domain, seo, controls, boxes, emailCapture);
      && Prop(c, "domain") == Some(domain)
      && Prop(c, "template") == Some(StandardTemplate)
      && Prop(c, "controls") == Some(controls)
      && Prop(c, "ads") == Some(JObj([("enabled", JBool(false)), ("network", JStr("adsense"))]))
  {
    AssembledDomain(domain, seo, controls, boxes, emailCapture);
    AssembledTemplate(domain, seo, controls, boxes, emailCapture);
    AssembledControls(domain, seo, controls, boxes, emailCapture);
    AssembledAds(domain, seo, controls, boxes, emailCapture);
  }

  /** The domain section names the domain and its category, and the domain is not for sale. */
  lemma DomainSectionFacts(domainName: string, category: string)
    ensures var d := DomainSection(domainName, category);
      && Prop(d, "name") == Some(JStr(domainName))
      && Prop(d, "category") == Some(JStr(category))
      && Prop(d, "forSale") == Some(JBool(false))
  {
    var d := DomainSection(domainName, category);
    assert d.fields[..4] == DomainShape(domainName, category, d.fields[4].1, d.fields[5].1).fields[..4];
    DomainShapeFacts(domainName, category, d.fields[4].1, d.fields[5].1);
  }

  lemma DomainShapeFacts(domainName: string, category: string, keywords: Json, description: Json)
    ensures var d := DomainShape(domainName, category, keywords, description);
      && Prop(d, "name") == Some(JStr(domainName))
      && Prop(d, "category") == Some(JStr(category))
      && Prop(d, "forSale") == Some(JBool(false))
  {
    var fs := DomainShape(domainName, category, keywords, description).fields;
    DomainShapeAt(fs, "name", 0);
    DomainShapeAt(fs, "forSale", 2);
    DomainShapeAt(fs, "category", 3);
  }

  /** One of the first four members of a `domain` section, whose keys all differ. */
  lemma DomainShapeAt(fs: Fields, k: string, i: nat)
    requires |fs| >= 4 && i < 4 && fs[i].0 == k
    requires fs[0].0 == "name" && fs[1].0 == "status" && fs[2].0 == "forSale" && fs[3].0 == "category"
    ensures Lookup(fs, k) == Some(fs[i].1)
  {
    LookupAt(fs, k, i);
  }


  /** What forcing ads off does to `before`: a falsy `ads` leaves the controls as they were; a
   *  truthy one leaves every other section; an object `ads` gets `globalEnabled` false and keeps its
   *  other members, and any other truthy `ads` (a string, number or array, where a sloppy-mode
   *  assignment is ignored) is kept as it was. */
  ghost predicate AdsForcedOff(before: Json, after: Json) {
    var ads := Prop(before, "ads");
    && (!TruthyOpt(ads) ==> after == before)
    && (TruthyOpt(ads) ==> after.JObj? && forall k :: k != "ads" ==> Prop(after, k) == Prop(before, k))
    && (TruthyOpt(ads) && !ads.value.JObj? ==> Prop(after, "ads") == ads)
    && (ads.Some? && ads.value.JObj? ==>
          && ValueAt(Some(after), ["ads", "globalEnabled"]) == Some(JBool(false))
          && forall k :: k != "globalEnabled" ==> ValueAt(Some(after), ["ads", k]) == ValueAt(Some(before), ["ads", k]))
  }

  /** Controls whose ads are already globally off, as the defaults are. */
  predicate AdsAlreadyOff(controls: Json) {
    var ads := Prop(controls, "ads");
    ads.Some? && ads.value.JObj? && Lookup(ads.value.fields, "globalEnabled") == Some(JBool(false))
  }

  /** `if (newConfig.controls && newConfig.controls.ads) newConfig.controls.ads.globalEnabled =
   *  false`, on controls that are `newConfig.controls`. Controls whose ads are already off come
   *  back as they were. */
  method ForceAdsOff(controls: Json) returns (r: Json)
    ensures AdsForcedOff(controls, r)
    ensures AdsAlreadyOff(controls) ==> r == controls
  {
    r := controls;
    var ads := Prop(controls, "ads");
    if TruthyOpt(ads) {
      var adsOff := Assign(ads, "globalEnabled", JBool(false), false).value;
      r := JObj(Put(controls.fields, "ads", adsOff));
      forall k ensures Prop(r, k) == if k == "ads" then Some(adsOff) else Prop(controls, k) {
        LookupPut(controls.fields, "ads", adsOff, k);
      }
      if ads.value.JObj? {
        forall k ensures Prop(adsOff, k) == if k == "globalEnabled" then Some(JBool(false)) else Prop(ads.value, k) {
          LookupPut(ads.value.fields, "globalEnabled", JBool(false), k);
        }
      }
      if AdsAlreadyOff(controls) {
        PutSame(ads.value.fields, "globalEnabled", JBool(false));
        PutSame(controls.fields, "ads", adsOff);
      }
    }
  }

  /** The default controls already have ads off. */
  lemma DefaultAdsOff()
    ensures AdsAlreadyOff(DefaultControls)
  {
    var ads := DefaultControls.fields[1].1;
    LookupAt(DefaultControls.fields, "ads", 1);
    LookupAt(ads.fields, "globalEnabled", 0);
  }

  /** A new configuration is in the new format unless the domain name is empty. */
  lemma NewConfigFacts(domainName: string, category: string, controls: Json)
    ensures domainName != "" ==> InNewFormat(NewConfig(domainName, category, controls))
  {
    NewConfigDomain(domainName, category, controls);
    var d := DomainSection(domainName, category);
    assert d.JObj? && Truthy(d);
    assert Prop(NewConfig(domainName, category, controls), "domain") == Some(d);
  }

  /** The new configuration's `domain` is the generated section, which names the domain. */
  lemma NewConfigDomain(domainName: string, category: string, controls: Json)
    ensures var d := Prop(NewConfig(domainName, category, controls), "domain");
      d == Some(DomainSection(domainName, category)) && Prop(d.value, "name") == Some(JStr(domainName))
  {
    AssembledDomain(DomainSection(domainName, category), SeoSection(domainName, category), controls,
      StandardBoxes(domainName), EmailCaptureSection(domainName));
    DomainSectionFacts(domainName, category);
  }


  /** What `StandardizeFile` yields for one file: the outcome and, when the file is written, the new configuration. */
  ghost predicate Describes(f: ConfigFile, o: FileOutcome) {
    && (f.fileName in SkipFiles ==> o == Skipped)
    && (f.fileName !in SkipFiles ==>
        (o.Failed? <==> f.parsed.None? || f.parsed.value == JNull))
    && (f.fileName !in SkipFiles && f.parsed.Some? && f.parsed.value != JNull ==>
        (o.Skipped? <==> InNewFormat(f.parsed.value)))
    && (!o.Written? ==> o.Skipped? || o.Failed?)
    && (o.Written? ==>
        var config := f.parsed.value;
        var name := DomainNameOf(f.fileName, config);
        var category := DetermineCategory(name, OptProp(Prop(config, "template"), "theme"));
        var before := Prop(config, "controls");
        var controls := Prop(o.config, "controls");
        && controls.Some?
        && o.config == NewConfig(name, category, controls.value)
        && (!TruthyOpt(before) ==> controls == Some(DefaultControls))
        && (TruthyOpt(before) ==> AdsForcedOff(before.value, controls.value))
        && (name != "" ==> InNewFormat(o.config)))
  }

  /** One file. A listed file is skipped before it is read; a configuration already in the new
   *  format is skipped; `null` throws when its `domain` is read. Any other configuration is
   *  rebuilt, keeping its truthy `controls` with ads forced off, or taking the defaults. */
  method StandardizeFile(f: ConfigFile) returns (o: FileOutcome)
    ensures Describes(f, o)
  {
    if f.fileName in SkipFiles {
      return Skipped;
    }
    if f.parsed.None? || f.parsed.value == JNull {
      return Failed("TypeError");
    }
    var config := f.parsed.value;
    if InNewFormat(config) {
      return Skipped;
    }
    var name := DomainNameOf(f.fileName, config);
    var category := DetermineCategory(name, OptProp(Prop(config, "template"), "theme"));
    var controls := Or(Prop(config, "controls"), Some(DefaultControls)).value;
    DefaultAdsOff();
    controls := ForceAdsOff(controls);
    NewConfigFacts(name, category, controls);
    return Written(NewConfig(name, category, controls));
  }

  /** The default controls have only the email form and analytics on: no domain or business
   *  inquiry, ads off and every ad position off. */
  lemma DefaultControlsOff()
    ensures var c := Some(DefaultControls);
      && ValueAt(c, ["forms", "emailCapture"]) == Some(JBool(true))
      && ValueAt(c, ["forms", "domainInquiry"]) == Some(JBool(false))
      && ValueAt(c, ["forms", "businessInquiry"]) == Some(JBool(false))
      && ValueAt(c, ["ads", "globalEnabled"]) == Some(JBool(false))
      && ValueAt(c, ["analytics"]) == Some(JBool(true))
    ensures forall k :: ValueAt(Some(DefaultControls), ["ads", "positions", k]).Some? ==>
      ValueAt(Some(DefaultControls), ["ads", "positions", k]) == Some(JBool(false))
  {
    var c := Some(DefaultControls);
    var positions := DefaultControls.fields[1].1.fields[1].1;
    assert ValueAt(c, ["ads", "positions"]) == Some(positions);
    forall k | ValueAt(c, ["ads", "positions", k]).Some?
      ensures ValueAt(c, ["ads", "positions", k]) == Some(JBool(false))
    {
      ValueAtAppend(c, ["ads", "positions"], [k]);
      assert ["ads", "positions"] + [k] == ["ads", "positions", k];
      LookupIn(positions.fields, k);
    }
  }

  /** The standard template is the landing template with the basic theme, light colours and
   *  fixed brand colours. */
  lemma StandardTemplateFacts()
    ensures var t := Some(StandardTemplate);
      && ValueAt(t, ["type"]) == Some(JStr("landing"))
      && ValueAt(t, ["theme"]) == Some(JStr("basic"))
      && ValueAt(t, ["colorMode"]) == Some(JStr("light"))
      && ValueAt(t, ["brandColors", "primary"]) == Some(JStr("#2563eb"))
      && ValueAt(t, ["brandColors", "secondary"]) == Some(JStr("#1e40af"))
      && ValueAt(t, ["brandColors", "accent"]) == Some(JStr("#3b82f6"))
  {
  }

  /** Every new configuration uses the standard template and has ads off. */
  lemma StandardTemplateFixed(domain: Json, seo: Json, controls: Json, boxes: Json, emailCapture: Json)
    ensures var c := Some(Assemble(domain, seo, controls, boxes, emailCapture));
      && ValueAt(c, ["template", "type"]) == Some(JStr("landing"))
      && ValueAt(c, ["template", "theme"]) == Some(JStr("basic"))
      && ValueAt(c, ["template", "colorMode"]) == Some(JStr("light"))
      && ValueAt(c, ["template", "brandColors", "primary"]) == Some(JStr("#2563eb"))
      && ValueAt(c, ["template", "brandColors", "secondary"]) == Some(JStr("#1e40af"))
      && ValueAt(c, ["template", "brandColors", "accent"]) == Some(JStr("#3b82f6"))
      && ValueAt(c, ["ads", "enabled"]) == Some(JBool(false))
  {
    AssembledSections(domain, seo, controls, boxes, emailCapture);
    StandardTemplateFacts();
    var c := Some(Assemble(domain, seo, controls, boxes, emailCapture));
    ValueAtAppend(c, ["template"], ["type"]);
    ValueAtAppend(c, ["template"], ["theme"]);
    ValueAtAppend(c, ["template"], ["colorMode"]);
    ValueAtAppend(c, ["template"], ["brandColors", "primary"]);
    ValueAtAppend(c, ["template"], ["brandColors", "secondary"]);
    ValueAtAppend(c, ["template"], ["brandColors", "accent"]);
    ValueAtAppend(c, ["ads"], ["enabled"]);
  }
}
