/**
 * The batch deployment of parking pages: for every domain of the domain8 list a template, a
 * theme and a generated configuration, unless a higher tier is live or a configuration already
 * exists, with the deployed, skipped and failed domains counted. Reading the CSV list, the file
 * system and the report are inputs and outputs left out; the ad network, which the script
 * derives from revenue and click-through figures by floating-point parsing, is an input.
 */
module BatchDeploy {
  import opened Wrappers
  import opened Strings
  import opened Seqs
  import opened Json
  import opened Types
  import opened Domain8

  /** A row of the domain list: its `Name`, and its `Business Idea` and `Model Type` columns,
   *  which a short row may lack. */
  datatype DomainRecord = DomainRecord(name: string, businessIdea: Option<string>, modelType: Option<string>)

  /** `field?.toLowerCase() || ''` */
  function LowerOr(field: Option<string>): string {
    if field.Some? then Lower(field.value) else ""
  }

  /** The model-type keywords that call for the hero template. */
  const HeroKeywords: seq<string> := ["directory", "platform", "comparison", "community", "membership", "marketplace"]

  /** The lower-cased model type mentions one of the hero keywords. */
  predicate IsHeroModel(modelType: string) {
    exists i :: 0 <= i < |HeroKeywords| && Contains(modelType, HeroKeywords[i])
  }

  /** `selectTemplate(domain)`: the keywords are tried in order and the first one found answers
   *  `hero`; without one the answer is `landing`. */
  method SelectTemplate(domain: DomainRecord) returns (t: TemplateType)
    ensures t == Hero <==> IsHeroModel(LowerOr(domain.modelType))
  {
    var modelType := LowerOr(domain.modelType);
    var i := 0;
    while i < |HeroKeywords|
      invariant 0 <= i <= |HeroKeywords|
      invariant forall j :: 0 <= j < i ==> !Contains(modelType, HeroKeywords[j])
    {
      if Contains(modelType, HeroKeywords[i]) {
        return Hero;
      }
      i := i + 1;
    }
    return Landing;
  }

  /** A domain without a model type gets the landing template. */
  lemma NoModelTypeIsLanding(domain: DomainRecord)
    requires domain.modelType.None?
    ensures !IsHeroModel(LowerOr(domain.modelType))
  {
    forall i | 0 <= i < |HeroKeywords| ensures !Contains("", HeroKeywords[i]) {
      assert IndexOfFrom("", HeroKeywords[i], 0).None?;
    }
  }

  /** `selectTheme(domain)` on the lower-cased business idea and model type. */
  function SelectTheme(domain: DomainRecord): (t: Theme)
    ensures t != Terminal
  {
    var idea := LowerOr(domain.businessIdea);
    var model := LowerOr(domain.modelType);
    if Contains(idea, "tech") || Contains(idea, "software") || Contains(idea, "app") then Technology
    else if Contains(idea, "insurance") || Contains(idea, "loan") || Contains(idea, "finance")
         || Contains(idea, "money") || Contains(idea, "investment") then Finance
    else if Contains(model, "e-commerce") || Contains(idea, "shop") || Contains(idea, "store") then Ecommerce
    else if Contains(idea, "lawyer") || Contains(idea, "service") || Contains(idea, "consulting") then Professional
    else if Contains(idea, "art") || Contains(idea, "design") || Contains(idea, "creative") then Creative
    else if Contains(model, "comparison") || Contains(idea, "compare") then Comparison
    else Basic
  }

  /** A theme rule: the theme, and the words that select it in the idea and in the model type. */
  datatype ThemeRule = ThemeRule(theme: Theme, ideaWords: seq<string>, modelWords: seq<string>)

  /** The theme rules, in the order they are tried. */
  const ThemeRules: seq<ThemeRule> := [
    ThemeRule(Technology, ["tech", "software", "app"], []),
    ThemeRule(Finance, ["insurance", "loan", "finance", "money", "investment"], []),
    ThemeRule(Ecommerce, ["shop", "store"], ["e-commerce"]),
    ThemeRule(Professional, ["lawyer", "service", "consulting"], []),
    ThemeRule(Creative, ["art", "design", "creative"], []),
    ThemeRule(Comparison, ["compare"], ["comparison"])]

  /** One of the words occurs in the text. */
  predicate AnyIn(text: string, words: seq<string>)
    decreases |words|
  {
    |words| > 0 && (Contains(text, words[0]) || AnyIn(text, words[1..]))
  }

  predicate RuleMatches(r: ThemeRule, idea: string, model: string) {
    AnyIn(idea, r.ideaWords) || AnyIn(model, r.modelWords)
  }

  /** The theme of the first rule that matches, `basic` when none does. */
  function FirstMatchingTheme(rules: seq<ThemeRule>, idea: string, model: string): Theme
    decreases |rules|
  {
    if |rules| == 0 then Basic
    else if RuleMatches(rules[0], idea, model) then rules[0].theme
    else FirstMatchingTheme(rules[1..], idea, model)
  }

  /** The theme is that of the first rule of the table whose words occur, `basic` otherwise. */
  lemma SelectThemeIsFirstRule(domain: DomainRecord)
    ensures SelectTheme(domain) == FirstMatchingTheme(ThemeRules, LowerOr(domain.businessIdea), LowerOr(domain.modelType))
  {
    var idea := LowerOr(domain.businessIdea);
    var model := LowerOr(domain.modelType);
    var rs := ThemeRules;
    assert RuleMatches(rs[0], idea, model) <==> Contains(idea, "tech") || Contains(idea, "software") || Contains(idea, "app") by {
      assert rs[0].ideaWords == ["tech", "software", "app"] && rs[0].modelWords == [];
    }
    assert RuleMatches(rs[1], idea, model) <==> (Contains(idea, "insurance") || Contains(idea, "loan")
      || Contains(idea, "finance") || Contains(idea, "money") || Contains(idea, "investment")) by {
      assert rs[1].ideaWords == ["insurance", "loan", "finance", "money", "investment"] && rs[1].modelWords == [];
    }
    assert RuleMatches(rs[2], idea, model) <==> Contains(model, "e-commerce") || Contains(idea, "shop") || Contains(idea, "store") by {
      assert rs[2].ideaWords == ["shop", "store"] && rs[2].modelWords == ["e-commerce"];
    }
    assert RuleMatches(rs[3], idea, model) <==> Contains(idea, "lawyer") || Contains(idea, "service") || Contains(idea, "consulting") by {
      assert rs[3].ideaWords == ["lawyer", "service", "consulting"] && rs[3].modelWords == [];
    }
    assert RuleMatches(rs[4], idea, model) <==> Contains(idea, "art") || Contains(idea, "design") || Contains(idea, "creative") by {
      assert rs[4].ideaWords == ["art", "design", "creative"] && rs[4].modelWords == [];
    }
    assert RuleMatches(rs[5], idea, model) <==> Contains(model, "comparison") || Contains(idea, "compare") by {
      assert rs[5].ideaWords == ["compare"] && rs[5].modelWords == ["comparison"];
    }
    assert rs[1..][1..][1..][1..][1..][1..] == [];
    assert rs[1..][0] == rs[1] && rs[1..][1..][0] == rs[2] && rs[1..][1..][1..][0] == rs[3];
    assert rs[1..][1..][1..][1..][0] == rs[4] && rs[1..][1..][1..][1..][1..][0] == rs[5];
  }

  /** The page title made of a domain name: the first `.com.au` removed, every `-` turned into a
   *  space, and each space-separated word capitalised. */
  function Title(name: string): (t: string)
    ensures '-' !in t
    ensures |t| == |ReplaceFirst(name, ".com.au", "")|
  {
    var s := ReplaceAllChar(ReplaceFirst(name, ".com.au", ""), '-', ' ');
    TitleWords(s);
    Join(CapitalizeAll(Split(s, ' ')), " ")
  }

  /** Capitalising the space-separated words of a text without `-` adds no `-` and keeps its length. */
  lemma TitleWords(s: string)
    requires '-' !in s
    ensures '-' !in Join(CapitalizeAll(Split(s, ' ')), " ")
    ensures |Join(CapitalizeAll(Split(s, ' ')), " ")| == |s|
  {
    SplitPartsFromSource(s, ' ');
    CapitalizeAllKeeps(Split(s, ' '), '-');
    JoinChars(CapitalizeAll(Split(s, ' ')), " ");
    JoinSplit(s, ' ');
    JoinSameLengths(Split(s, ' '), CapitalizeAll(Split(s, ' ')), " ", " ");
  }

  /** The box every generated configuration has. */
  function MainBox(domain: DomainRecord): Json {
    JObj([("type", JStr("text")),
          ("content", JStr(StrOr(domain.businessIdea, "Content for " + domain.name))),
          ("aiPrompt", JStr("Generate engaging content for a " + TextOf(domain.modelType)
                            + " website about: " + TextOf(domain.businessIdea)))])
  }

  /** A box with a type, a content and the prompt that generates it. */
  function TextBox(kind: string, content: string, prompt: string): Json {
    JObj([("type", JStr(kind)), ("content", JStr(content)), ("aiPrompt", JStr(prompt))])
  }

  /** A feature box. */
  function FeatureBox(n: string, ordinal: string, domain: DomainRecord): Json {
    JObj([("type", JStr("feature")), ("title", JStr("Feature " + n)),
          ("content", JStr("Key feature description")),
          ("aiPrompt", JStr("Generate " + ordinal + " key feature for: " + TextOf(domain.businessIdea)))])
  }

  /** The names of the generated content boxes, in order. */
  function BoxNames(t: TemplateType): seq<string> {
    if t == Hero then ["main", "hero-headline", "hero-cta", "feature-1", "feature-2", "feature-3"] else ["main"]
  }

  /** The hero boxes are added after `main`, in the order they are assigned. */
  lemma HeroBoxNames(main: Json, headline: Json, cta: Json, f1: Json, f2: Json, f3: Json)
    ensures Keys(Put(Put(Put(Put(Put([("main", main)], "hero-headline", headline), "hero-cta", cta),
      "feature-1", f1), "feature-2", f2), "feature-3", f3)) == BoxNames(Hero)
  {
    var b0: Fields := [("main", main)];
    assert Keys(b0) == ["main"];
    PutAbsent(b0, "hero-headline", headline);
    var b1 := b0 + [("hero-headline", headline)];
    assert Keys(b1) == ["main", "hero-headline"];
    PutAbsent(b1, "hero-cta", cta);
    var b2 := b1 + [("hero-cta", cta)];
    assert Keys(b2) == ["main", "hero-headline", "hero-cta"];
    PutAbsent(b2, "feature-1", f1);
    var b3 := b2 + [("feature-1", f1)];
    assert Keys(b3) == ["main", "hero-headline", "hero-cta", "feature-1"];
    PutAbsent(b3, "feature-2", f2);
    var b4 := b3 + [("feature-2", f2)];
    assert Keys(b4) == ["main", "hero-headline", "hero-cta", "feature-1", "feature-2"];
    PutAbsent(b4, "feature-3", f3);
    assert Keys(b4 + [("feature-3", f3)]) == BoxNames(Hero);
  }

  /** The configuration around its content boxes. */
  function ConfigJson(domain: DomainRecord, t: TemplateType, theme: Theme, title: string, boxes: Fields,
                      adNetwork: string): Json
  {
    JObj([
      ("domain", JStr(domain.name)),
      ("template", JObj([("type", JStr(TemplateName(t))), ("theme", JStr(ThemeName(theme)))])),
      ("content", ContentJson(domain, title, boxes)),
      ("monetization", MonetizationJson(adNetwork))])
  }

  /** The content section: the title, the tagline, the description and the boxes. */
  function ContentJson(domain: DomainRecord, title: string, boxes: Fields): Json {
    JObj([
      ("title", JStr(title)),
      ("tagline", JStr("Welcome to " + domain.name)),
      ("description", JStr(StrOr(domain.businessIdea, "Welcome to " + domain.name))),
      ("contentBoxes", JObj(boxes))])
  }

  /** The monetization section: for sale at `$2,500`, with the ad settings. */
  function MonetizationJson(adNetwork: string): Json {
    JObj([("forSale", JBool(true)), ("price", JStr("$2,500")), ("ads", AdsJson(adNetwork))])
  }

  /** Reading a path in an object starts with its first key. */
  lemma ReadSection(config: Json, k: string, rest: seq<string>)
    requires config.JObj?
    ensures ValueAt(Some(config), [k] + rest) == ValueAt(Prop(config, k), rest)
  {
    assert ([k] + rest)[0] == k && ([k] + rest)[1..] == rest;
  }

  lemma MonetizationFacts(adNetwork: string)
    ensures var money := MonetizationJson(adNetwork);
      ValueAt(Some(money), ["forSale"]) == Some(JBool(true))
      && ValueAt(Some(money), ["price"]) == Some(JStr("$2,500"))
      && ValueAt(Some(money), ["ads", "enabled"]) == Some(JBool(adNetwork != "none"))
      && (ValueAt(Some(money), ["ads", "network"]).Some? <==> adNetwork != "none")
  {
    var money := MonetizationJson(adNetwork);
    LookupAt(money.fields, "forSale", 0);
    LookupAt(money.fields, "price", 1);
    LookupAt(money.fields, "ads", 2);
    AdsFacts(adNetwork);
    assert ["ads", "enabled"][1..] == ["enabled"] && ["ads", "network"][1..] == ["network"];
  }

  /** The ad settings: enabled unless the network is `none`, and the network, which is
   *  `undefined` (and so not written) for `none`. */
  function AdsJson(adNetwork: string): Json {
    Obj([("enabled", Some(JBool(adNetwork != "none"))),
         ("network", if adNetwork != "none" then Some(JStr(adNetwork)) else None)])
  }

  lemma AdsFacts(adNetwork: string)
    ensures Prop(AdsJson(adNetwork), "enabled") == Some(JBool(adNetwork != "none"))
    ensures Prop(AdsJson(adNetwork), "network").Some? <==> adNetwork != "none"
  {
    var members := [("enabled", Some(JBool(adNetwork != "none"))),
                    ("network", if adNetwork != "none" then Some(JStr(adNetwork)) else None)];
    var ads := AdsJson(adNetwork);
    assert members[1..][1..] == [];
    assert Present(members[1..][1..]) == [];
    if adNetwork != "none" {
      assert Present(members[1..]) == [("network", JStr(adNetwork))];
      assert ads.fields == [("enabled", JBool(true)), ("network", JStr(adNetwork))];
      LookupAt(ads.fields, "network", 1);
    } else {
      assert Present(members[1..]) == [];
      assert ads.fields == [("enabled", JBool(false))];
    }
  }

  /** The template `selectTemplate` chooses for a domain. */
  function TemplateOf(domain: DomainRecord): TemplateType {
    if IsHeroModel(LowerOr(domain.modelType)) then Hero else Landing
  }

  /** The content boxes `generateConfig` builds: `main`, then the five hero boxes for the hero
   *  template. */
  function GeneratedBoxes(domain: DomainRecord): Fields {
    var boxes: Fields := [("main", MainBox(domain))];
    if TemplateOf(domain) == Hero then
      var title := Title(domain.name);
      Put(Put(Put(Put(Put(boxes,
        "hero-headline", TextBox("text", "Discover " + title,
          "Generate a compelling headline for: " + TextOf(domain.businessIdea))),
        "hero-cta", TextBox("button", "Get Started",
          "Generate a call-to-action button text for: " + TextOf(domain.modelType))),
        "feature-1", FeatureBox("1", "first", domain)),
        "feature-2", FeatureBox("2", "second", domain)),
        "feature-3", FeatureBox("3", "third", domain))
    else boxes
  }

  /** The configuration `generateConfig(domain)` returns for the ad network it was given. */
  function Generated(domain: DomainRecord, adNetwork: string): Json {
    ConfigJson(domain, TemplateOf(domain), SelectTheme(domain), Title(domain.name), GeneratedBoxes(domain), adNetwork)
  }

  /** What every generated configuration holds: the chosen template and theme, the title, exactly
   *  the box names of its template, the sale at `$2,500`, ads as the network decides, and no
   *  brand colours. */
  lemma GeneratedFacts(domain: DomainRecord, adNetwork: string)
    ensures var config := Generated(domain, adNetwork);
      ValueAt(Some(config), ["template", "type"]) == Some(JStr(TemplateName(TemplateOf(domain))))
      && ValueAt(Some(config), ["template", "theme"]) == Some(JStr(ThemeName(SelectTheme(domain))))
      && ValueAt(Some(config), ["template", "brandColors"]).None?
      && ValueAt(Some(config), ["content", "title"]) == Some(JStr(Title(domain.name)))
      && ValueAt(Some(config), ["content", "contentBoxes"]) == Some(JObj(GeneratedBoxes(domain)))
      && Keys(GeneratedBoxes(domain)) == BoxNames(TemplateOf(domain))
      && ValueAt(Some(config), ["monetization", "forSale"]) == Some(JBool(true))
      && ValueAt(Some(config), ["monetization", "price"]) == Some(JStr("$2,500"))
      && ValueAt(Some(config), ["monetization", "ads", "enabled"]) == Some(JBool(adNetwork != "none"))
      && (ValueAt(Some(config), ["monetization", "ads", "network"]).Some? <==> adNetwork != "none")
  {
    var t, theme, title, boxes := TemplateOf(domain), SelectTheme(domain), Title(domain.name), GeneratedBoxes(domain);
    ConfigTemplate(domain, t, theme, title, boxes, adNetwork);
    ConfigContent(domain, t, theme, title, boxes, adNetwork);
    ConfigMonetization(domain, t, theme, title, boxes, adNetwork);
    if t == Hero {
      HeroBoxNames(MainBox(domain),
        TextBox("text", "Discover " + title, "Generate a compelling headline for: " + TextOf(domain.businessIdea)),
        TextBox("button", "Get Started", "Generate a call-to-action button text for: " + TextOf(domain.modelType)),
        FeatureBox("1", "first", domain), FeatureBox("2", "second", domain), FeatureBox("3", "third", domain));
    }
  }

  /** `generateConfig(domain)` for the ad network the domain was given. The hero template adds
   *  its five boxes to the content boxes after the configuration is built. */
  method GenerateConfig(domain: DomainRecord, adNetwork: string) returns (config: Json)
    ensures ValueAt(Some(config), ["template", "type"])
      == Some(JStr(TemplateName(if IsHeroModel(LowerOr(domain.modelType)) then Hero else Landing)))
    ensures ValueAt(Some(config), ["template", "theme"]) == Some(JStr(ThemeName(SelectTheme(domain))))
    ensures ValueAt(Some(config), ["content", "title"]) == Some(JStr(Title(domain.name)))
    ensures var bs := ValueAt(Some(config), ["content", "contentBoxes"]);
      bs.Some? && bs.value.JObj?
      && Keys(bs.value.fields) == BoxNames(if IsHeroModel(LowerOr(domain.modelType)) then Hero else Landing)
    ensures ValueAt(Some(config), ["monetization", "forSale"]) == Some(JBool(true))
    ensures ValueAt(Some(config), ["monetization", "price"]) == Some(JStr("$2,500"))
    ensures ValueAt(Some(config), ["monetization", "ads", "enabled"]) == Some(JBool(adNetwork != "none"))
    ensures ValueAt(Some(config), ["monetization", "ads", "network"]).Some? <==> adNetwork != "none"
    ensures ValueAt(Some(config), ["template", "brandColors"]).None?
    ensures config == Generated(domain, adNetwork)
  {
    var template := SelectTemplate(domain);
    var theme := SelectTheme(domain);
    var title := Title(domain.name);
    var boxes: Fields := [("main", MainBox(domain))];
    if template == Hero {
      var headline := TextBox("text", "Discover " + title,
        "Generate a compelling headline for: " + TextOf(domain.businessIdea));
      var cta := TextBox("button", "Get Started",
        "Generate a call-to-action button text for: " + TextOf(domain.modelType));
      var f1, f2, f3 := FeatureBox("1", "first", domain), FeatureBox("2", "second", domain), FeatureBox("3", "third", domain);
      boxes := Put(boxes, "hero-headline", headline);
      boxes := Put(boxes, "hero-cta", cta);
      boxes := Put(boxes, "feature-1", f1);
      boxes := Put(boxes, "feature-2", f2);
      boxes := Put(boxes, "feature-3", f3);
      HeroBoxNames(MainBox(domain), headline, cta, f1, f2, f3);
    }
    assert Keys(boxes) == BoxNames(template);
    assert boxes == GeneratedBoxes(domain);
    config := ConfigJson(domain, template, theme, title, boxes, adNetwork);
    ConfigTemplate(domain, template, theme, title, boxes, adNetwork);
    ConfigContent(domain, template, theme, title, boxes, adNetwork);
    ConfigMonetization(domain, template, theme, title, boxes, adNetwork);
  }

  lemma ConfigTemplate(domain: DomainRecord, t: TemplateType, theme: Theme, title: string, boxes: Fields, adNetwork: string)
    ensures var config := ConfigJson(domain, t, theme, title, boxes, adNetwork);
      ValueAt(Some(config), ["template", "type"]) == Some(JStr(TemplateName(t)))
      && ValueAt(Some(config), ["template", "theme"]) == Some(JStr(ThemeName(theme)))
      && ValueAt(Some(config), ["template", "brandColors"]).None?
  {
    var config := ConfigJson(domain, t, theme, title, boxes, adNetwork);
    var tmpl := JObj([("type", JStr(TemplateName(t))), ("theme", JStr(ThemeName(theme)))]);
    LookupAt(config.fields, "template", 1);
    LookupAt(tmpl.fields, "type", 0);
    LookupAt(tmpl.fields, "theme", 1);
    assert "brandColors" !in Keys(tmpl.fields);
    assert ["template", "type"][1..] == ["type"] && ["template", "theme"][1..] == ["theme"];
    assert ["template", "brandColors"][1..] == ["brandColors"];
  }

  lemma ConfigContent(domain: DomainRecord, t: TemplateType, theme: Theme, title: string, boxes: Fields, adNetwork: string)
    ensures var config := ConfigJson(domain, t, theme, title, boxes, adNetwork);
      ValueAt(Some(config), ["content", "title"]) == Some(JStr(title))
      && ValueAt(Some(config), ["content", "contentBoxes"]) == Some(JObj(boxes))
  {
    var config := ConfigJson(domain, t, theme, title, boxes, adNetwork);
    var content := ContentJson(domain, title, boxes);
    LookupAt(config.fields, "content", 2);
    LookupAt(content.fields, "title", 0);
    LookupAt(content.fields, "contentBoxes", 3);
    ReadSection(config, "content", ["title"]);
    assert ["content", "title"] == ["content"] + ["title"];
    ReadSection(config, "content", ["contentBoxes"]);
    assert ["content", "contentBoxes"] == ["content"] + ["contentBoxes"];
  }

  lemma ConfigMonetization(domain: DomainRecord, t: TemplateType, theme: Theme, title: string, boxes: Fields, adNetwork: string)
    ensures var config := ConfigJson(domain, t, theme, title, boxes, adNetwork);
      ValueAt(Some(config), ["monetization", "forSale"]) == Some(JBool(true))
      && ValueAt(Some(config), ["monetization", "price"]) == Some(JStr("$2,500"))
      && ValueAt(Some(config), ["monetization", "ads", "enabled"]) == Some(JBool(adNetwork != "none"))
      && (ValueAt(Some(config), ["monetization", "ads", "network"]).Some? <==> adNetwork != "none")
  {
    var config := ConfigJson(domain, t, theme, title, boxes, adNetwork);
    LookupAt(config.fields, "monetization", 3);
    MonetizationFacts(adNetwork);
    ReadSection(config, "monetization", ["forSale"]);
    assert ["monetization", "forSale"] == ["monetization"] + ["forSale"];
    ReadSection(config, "monetization", ["price"]);
    assert ["monetization", "price"] == ["monetization"] + ["price"];
    ReadSection(config, "monetization", ["ads", "enabled"]);
    assert ["monetization", "ads", "enabled"] == ["monetization"] + ["ads", "enabled"];
    ReadSection(config, "monetization", ["ads", "network"]);
    assert ["monetization", "ads", "network"] == ["monetization"] + ["ads", "network"];
  }

  /** The path of the brand colours in a configuration. */
  const BrandPath: seq<string> := ["template", "brandColors"]

  /** The configuration `deployDomain` writes: the generated one, with domain8's brand colours
   *  assigned to `template.brandColors` when domain8 has them. */
  function DeployedConfig(domain: DomainRecord, adNetwork: string, st: Domain8Status): Json {
    var config := Generated(domain, adNetwork);
    if st.Brand().Some? then
      GeneratedTemplateIsObject(domain, adNetwork);
      AssignAtObjects(config, BrandPath, st.Brand().value, true);
      AssignAt(config, BrandPath, st.Brand().value, true).value
    else config
  }

  /** A generated configuration has a `template` object to assign the brand colours in. */
  lemma GeneratedTemplateIsObject(domain: DomainRecord, adNetwork: string)
    ensures ObjectsAlong(Generated(domain, adNetwork), BrandPath)
  {
    var config := Generated(domain, adNetwork);
    LookupAt(config.fields, "template", 1);
    assert BrandPath[1..] == ["brandColors"];
  }

  /** Merging the brand changes only `template.brandColors`: the deployed configuration has
   *  domain8's brand colours (none when domain8 has none), the generated template type and
   *  theme, and every other section as generated. */
  lemma DeployedConfigFrame(domain: DomainRecord, adNetwork: string, st: Domain8Status)
    ensures var config := DeployedConfig(domain, adNetwork, st);
      var generated := Generated(domain, adNetwork);
      config.JObj?
      && ValueAt(Some(config), BrandPath) == st.Brand()
      && ValueAt(Some(config), ["template", "type"]) == ValueAt(Some(generated), ["template", "type"])
      && ValueAt(Some(config), ["template", "theme"]) == ValueAt(Some(generated), ["template", "theme"])
      && forall k :: k != "template" ==> Prop(config, k) == Prop(generated, k)
  {
    var generated := Generated(domain, adNetwork);
    GeneratedFacts(domain, adNetwork);
    if st.Brand().Some? {
      var bc := st.Brand().value;
      GeneratedTemplateIsObject(domain, adNetwork);
      AssignAtObjects(generated, BrandPath, bc, true);
      forall k | k != "template" ensures Prop(DeployedConfig(domain, adNetwork, st), k) == Prop(generated, k) {
        AssignAtOtherKeys(generated, BrandPath, bc, true, k);
      }
      var template := Prop(generated, "template").value;
      var template' := JObj(Put(template.fields, "brandColors", bc));
      assert DeployedConfig(domain, adNetwork, st) == JObj(Put(generated.fields, "template", template'));
      LookupPut(generated.fields, "template", template', "template");
      LookupPut(template.fields, "brandColors", bc, "type");
      LookupPut(template.fields, "brandColors", bc, "theme");
    }
  }

  /** The deployed configuration keeps everything `generateConfig` promises, with domain8's brand
   *  colours in place. */
  lemma DeployedConfigFacts(domain: DomainRecord, adNetwork: string, st: Domain8Status)
    ensures var config := DeployedConfig(domain, adNetwork, st);
      ValueAt(Some(config), BrandPath) == st.Brand()
      && ValueAt(Some(config), ["template", "type"]) == Some(JStr(TemplateName(TemplateOf(domain))))
      && ValueAt(Some(config), ["template", "theme"]) == Some(JStr(ThemeName(SelectTheme(domain))))
      && ValueAt(Some(config), ["content", "title"]) == Some(JStr(Title(domain.name)))
      && ValueAt(Some(config), ["content", "contentBoxes"]) == Some(JObj(GeneratedBoxes(domain)))
      && Keys(GeneratedBoxes(domain)) == BoxNames(TemplateOf(domain))
      && ValueAt(Some(config), ["monetization", "forSale"]) == Some(JBool(true))
      && ValueAt(Some(config), ["monetization", "price"]) == Some(JStr("$2,500"))
      && ValueAt(Some(config), ["monetization", "ads", "enabled"]) == Some(JBool(adNetwork != "none"))
      && (ValueAt(Some(config), ["monetization", "ads", "network"]).Some? <==> adNetwork != "none")
  {
    var config := DeployedConfig(domain, adNetwork, st);
    var generated := Generated(domain, adNetwork);
    GeneratedFacts(domain, adNetwork);
    DeployedConfigFrame(domain, adNetwork, st);
    SameSection(config, generated, "content", ["title"]);
    SameSection(config, generated, "content", ["contentBoxes"]);
    SameSection(config, generated, "monetization", ["forSale"]);
    SameSection(config, generated, "monetization", ["price"]);
    SameSection(config, generated, "monetization", ["ads", "enabled"]);
    SameSection(config, generated, "monetization", ["ads", "network"]);
  }

  /** Two objects with the same section read the same along any path into it. */
  lemma SameSection(a: Json, b: Json, k: string, rest: seq<string>)
    requires a.JObj? && b.JObj? && Prop(a, k) == Prop(b, k)
    ensures ValueAt(Some(a), [k] + rest) == ValueAt(Some(b), [k] + rest)
  {
    assert ([k] + rest)[0] == k && ([k] + rest)[1..] == rest;
  }

  datatype DeployStatus = Deployed | Skipped | Errored

  /** The outcome of one domain, with the configuration written for a deployed one. */
  datatype DeploymentResult = DeploymentResult(domain: string, status: DeployStatus, reason: string, config: Option<Json>)

  /** `deployDomain(domain)` for what `checkDomain8Status` resolved (or rejected) with for the
   *  domain, whether its configuration file exists, its ad network, and the error writing the
   *  configuration raised, if any. Errors are reported by their name. */
  method DeployDomain(domain: DomainRecord, d8: Result<Domain8Status>, configExists: bool, adNetwork: string,
                      writeError: Option<string>) returns (r: DeploymentResult)
    ensures r.domain == domain.name
    ensures d8.Success? && d8.value.Known? && !d8.value.tier0Enabled ==>
      r == DeploymentResult(domain.name, Skipped, "Higher tier active (" + StringOf(d8.value.phase) + ")", None)
    ensures d8.Success? && d8.value.AllowsTier0() && configExists ==>
      r == DeploymentResult(domain.name, Skipped, "Config already exists", None)
    ensures r.status == Deployed <==> d8.Success? && d8.value.AllowsTier0() && !configExists && writeError.None?
    ensures r.status == Errored <==>
      (d8.Failure? || (d8.value.AllowsTier0() && !configExists && writeError.Some?))
    ensures r.status == Deployed ==>
      (r.config.Some? && ValueAt(r.config, ["template", "brandColors"]) == d8.value.Brand())
    ensures r.status == Deployed ==> r.config == Some(DeployedConfig(domain, adNetwork, d8.value))
  {
    if d8.Failure? {
      return DeploymentResult(domain.name, Errored, "Error: " + d8.error, None);
    }
    var st := d8.value;
    if st.Known? && !st.tier0Enabled {
      return DeploymentResult(domain.name, Skipped, "Higher tier active (" + StringOf(st.phase) + ")", None);
    }
    if configExists {
      return DeploymentResult(domain.name, Skipped, "Config already exists", None);
    }
    var config := GenerateConfig(domain, adNetwork);
    if st.Known? && st.brandColors.Some? {
      assert ObjectsAlong(config, ["template", "brandColors"]) by {
        assert ["template", "brandColors"][1..] == ["brandColors"];
        assert ["template", "type"][1..] == ["type"];
      }
      AssignAtObjects(config, ["template", "brandColors"], st.brandColors.value, true);
      config := AssignAt(config, ["template", "brandColors"], st.brandColors.value, true).value;
    }
    if writeError.Some? {
      return DeploymentResult(domain.name, Errored, "Error: " + writeError.value, None);
    }
    return DeploymentResult(domain.name, Deployed, "Successfully deployed", Some(config));
  }

  /** What one domain of the list meets: its row, its domain8 directory, whether its
   *  configuration exists, its ad network, and the error writing its configuration raises. */
  datatype DomainInput = DomainInput(record: DomainRecord, dir: Option<Domain8Dir>, configExists: bool,
                                     adNetwork: string, writeError: Option<string>)

  /** A domain of the list is deployed: domain8 allows tier 0, no configuration exists, and
   *  writing it succeeds. */
  predicate Deploys(d: DomainInput) {
    var d8 := CheckDomain8Status(d.dir);
    d8.Success? && d8.value.AllowsTier0() && !d.configExists && d.writeError.None?
  }

  /** A domain of the list is skipped: domain8 reports a higher tier, or a configuration exists. */
  predicate Skips(d: DomainInput) {
    var d8 := CheckDomain8Status(d.dir);
    d8.Success? && (!d8.value.AllowsTier0() || d.configExists)
  }

  /** A domain of the list errors: the domain8 check rejects, or writing the configuration fails. */
  predicate Fails(d: DomainInput) {
    var d8 := CheckDomain8Status(d.dir);
    d8.Failure? || (d8.value.AllowsTier0() && !d.configExists && d.writeError.Some?)
  }

  predicate IsDeployed(r: DeploymentResult) { r.status == Deployed }
  predicate IsSkipped(r: DeploymentResult) { r.status == Skipped }
  predicate IsErrored(r: DeploymentResult) { r.status == Errored }

  /** The result reports its domain: its name, the status the domain's inputs decide, and the
   *  configuration written for a deployed one. */
  predicate Reports(d: DomainInput, r: DeploymentResult) {
    r.domain == d.record.name
    && (r.status == Deployed <==> Deploys(d))
    && (r.status == Skipped <==> Skips(d))
    && (r.status == Errored <==> Fails(d))
    && (Deploys(d) ==> r.config == Some(DeployedConfig(d.record, d.adNetwork, CheckDomain8Status(d.dir).value)))
  }

  /** `deployDomain` on one domain of the list. */
  method DeployOne(d: DomainInput) returns (r: DeploymentResult)
    ensures Reports(d, r)
  {
    var d8 := CheckDomain8Status(d.dir);
    r := DeployDomain(d.record, d8, d.configExists, d.adNetwork, d.writeError);
  }

  /** The loop of `main`: every domain is deployed in turn, its result recorded and counted. */
  method DeployAll(domains: seq<DomainInput>) returns (results: seq<DeploymentResult>, deployed: nat, skipped: nat, errors: nat)
    ensures |results| == |domains|
    ensures forall i :: 0 <= i < |domains| ==> Reports(domains[i], results[i])
    ensures deployed == CountIf(results, IsDeployed)
    ensures skipped == CountIf(results, IsSkipped)
    ensures errors == CountIf(results, IsErrored)
    ensures deployed + skipped + errors == |domains|
  {
    results, deployed, skipped, errors := [], 0, 0, 0;
    for i := 0 to |domains|
      invariant |results| == i
      invariant AllReported(domains, results)
      invariant deployed == CountIf(results, IsDeployed)
      invariant skipped == CountIf(results, IsSkipped)
      invariant errors == CountIf(results, IsErrored)
      invariant deployed + skipped + errors == i
    {
      var result := DeployOne(domains[i]);
      CountIfAppend(results, result, IsDeployed);
      CountIfAppend(results, result, IsSkipped);
      CountIfAppend(results, result, IsErrored);
      assert (results + [result])[..i] == results;
      results := results + [result];
      if result.status == Deployed {
        deployed := deployed + 1;
      } else if result.status == Skipped {
        skipped := skipped + 1;
      } else {
        errors := errors + 1;
      }
    }
    AllReportedAt(domains, results);
  }

  /** Each of the first `|results|` domains has the result `Reports` describes. */
  ghost predicate AllReported(domains: seq<DomainInput>, results: seq<DeploymentResult>)
    requires |results| <= |domains|
    decreases |results|
  {
    |results| == 0
    || (AllReported(domains, results[..|results| - 1]) && Reports(domains[|results| - 1], results[|results| - 1]))
  }

  lemma {:induction false} AllReportedAt(domains: seq<DomainInput>, results: seq<DeploymentResult>)
    requires |results| <= |domains| && AllReported(domains, results)
    ensures forall i :: 0 <= i < |results| ==> Reports(domains[i], results[i])
    decreases |results|
  {
    if |results| > 0 {
      AllReportedAt(domains, results[..|results| - 1]);
    }
  }
}
