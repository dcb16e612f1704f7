/**
 * The landing content fix: the content boxes of every landing configuration are replaced by a
 * `main` headline box, which keeps the old `main-headline` content or is generated from the
 * domain, and an `additional` features grid with three fixed features.
 */
module FixLandingContent {
  import opened Wrappers
  import opened Json
  import opened ConfigLoader
  import opened ConfigScripts

  /** The files with custom content. */
  const SkipFiles: seq<string> :=
    ["brewhaus.com.au.json", "seosem.com.au.json", "hero-demo.com.au.json", "landing-demo.com.au.json"]

  /** The subtitle used when the domain has no description. */
  const DefaultSubtitle := "Your destination for premium Australian services. Coming soon."

  function Feature(title: string, description: string, icon: string): Json {
    JObj([("title", JStr(title)), ("description", JStr(description)), ("icon", JStr(icon))])
  }

  /** The three features of the `additional` box. */
  const LandingFeatures: seq<Json> := [
    Feature("Australian Owned", "Proudly Australian owned and operated", "\U{1F1E6}\U{1F1FA}"),
    Feature("Coming Soon", "Register for early access and updates", "\U{1F680}"),
    Feature("Premium Domain", "This domain may be available for purchase", "\U{1F48E}")]

  /** The new content boxes around the content of the `main` box. */
  function LandingBoxes(main: Json): Json {
    JObj([
      ("main", JObj([("type", JStr("headline")), ("position", JStr("main")), ("content", main)])),
      ("additional", JObj([("type", JStr("features-grid")), ("position", JStr("additional")),
                           ("content", JObj([("features", JArr(LandingFeatures))]))]))])
  }

  /** The content generated for a configuration without a `main-headline` box: the welcome title
   *  and the domain description, or a fixed subtitle. */
  function GeneratedMain(domain: Option<Json>): (r: Result<Json>)
    ensures r.Failure? <==> WelcomeTitle(domain).Failure?
    ensures r.Success? ==>
      && Prop(r.value, "title") == Some(JStr(WelcomeTitle(domain).value))
      && Prop(r.value, "subtitle") == Or(Prop(domain.value, "description"), Some(JStr(DefaultSubtitle)))
  {
    match WelcomeTitle(domain)
    case Failure(e) => Failure(e)
    case Success(title) =>
      var fs := [("title", JStr(title)), ("subtitle", Or(Prop(domain.value, "description"), Some(JStr(DefaultSubtitle))).value)];
      LookupAt(fs, "title", 0);
      LookupAt(fs, "subtitle", 1);
      Success(JObj(fs))
  }

  /** The new boxes hold exactly `main` and `additional`, in that order: `main` is a headline with
   *  the given content and `additional` a features grid with the three features. */
  lemma LandingBoxesLayout(main: Json)
    ensures Keys(LandingBoxes(main).fields) == ["main", "additional"]
    ensures ValueAt(Some(LandingBoxes(main)), ["main", "type"]) == Some(JStr("headline"))
    ensures ValueAt(Some(LandingBoxes(main)), ["main", "content"]) == Some(main)
    ensures ValueAt(Some(LandingBoxes(main)), ["additional", "type"]) == Some(JStr("features-grid"))
    ensures ValueAt(Some(LandingBoxes(main)), ["additional", "content", "features"]) == Some(JArr(LandingFeatures))
  {
    var boxes := LandingBoxes(main);
    var mainBox := boxes.fields[0].1;
    var additional := boxes.fields[1].1;
    LookupAt(boxes.fields, "main", 0);
    LookupAt(boxes.fields, "additional", 1);
    LookupAt(mainBox.fields, "content", 2);
    LookupAt(additional.fields, "type", 0);
    LookupAt(additional.fields, "content", 2);
    ValueAtAppend(Some(boxes), ["additional"], ["content", "features"]);
    assert ["additional"] + ["content", "features"] == ["additional", "content", "features"];
  }

  /** What `FixLandingFile` yields for one file: the outcome and, when the file is written, the new configuration. */
  ghost predicate Describes(f: ConfigFile, o: FileOutcome) {
    && (f.fileName in SkipFiles ==> o == Skipped)
    && (!o.Untouched?)
    && (f.fileName !in SkipFiles && (f.parsed.None? || f.parsed.value == JNull) ==> o.Failed?)
    && (f.fileName !in SkipFiles ==>
        (o.Skipped? <==> f.parsed.Some? && f.parsed.value != JNull && !IsLanding(f.parsed.value)))
    && (f.fileName !in SkipFiles && f.parsed.Some? && f.parsed.value != JNull && IsLanding(f.parsed.value) ==>
        var config := f.parsed.value;
        var headline := ValueAt(Prop(config, "contentBoxes"), ["main-headline", "content"]);
        && (o.Failed? <==> !TruthyOpt(headline) && GeneratedMain(Prop(config, "domain")).Failure?)
        && (o.Written? && TruthyOpt(headline) ==> Prop(o.config, "contentBoxes") == Some(LandingBoxes(headline.value)))
        && (o.Written? && !TruthyOpt(headline) ==>
              Prop(o.config, "contentBoxes") == Some(LandingBoxes(GeneratedMain(Prop(config, "domain")).value))))
    && (o.Written? ==>
        && f.parsed.Some? && o.config.JObj?
        && forall k :: k != "contentBoxes" ==> Prop(o.config, k) == Prop(f.parsed.value, k))
  }

  /** One file. A file with custom content is skipped before it is read, and so is any
   *  configuration whose template is not `landing`; a file that cannot be parsed, a `null`
   *  configuration, and content to generate for a domain without a string name are errors. Every
   *  other landing configuration is written with the new boxes and nothing else changed. */
  method FixLandingFile(f: ConfigFile) returns (o: FileOutcome)
    ensures Describes(f, o)
  {
    if f.fileName in SkipFiles {
      return Skipped;
    }
    if f.parsed.None? {
      return Failed("SyntaxError");
    }
    var config := f.parsed.value;
    if config == JNull {
      return Failed("TypeError");
    }
    if !IsLanding(config) {
      return Skipped;
    }
    var headline := ValueAt(Prop(config, "contentBoxes"), ["main-headline", "content"]);
    var main: Json;
    if TruthyOpt(headline) {
      main := headline.value;
    } else {
      var generated := GeneratedMain(Prop(config, "domain"));
      if generated.Failure? {
        return Failed(generated.error);
      }
      main := generated.value;
    }
    PropPut(config, "contentBoxes", LandingBoxes(main));
    config := JObj(Put(config.fields, "contentBoxes", LandingBoxes(main)));
    return Written(config);
  }
}
