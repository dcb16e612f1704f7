/**
 * The landing content simplification: the content boxes of every landing configuration are
 * replaced by a single `main` headline box that keeps the title and subtitle of the old `main`
 * box, falling back to a generated title and to the domain description or a fixed subtitle.
 */
module SimplifyLandingContent {
  import opened Wrappers
  import opened Json
  import opened ConfigLoader
  import opened ConfigScripts

  /** The files with custom content. */
  const SkipFiles: seq<string> :=
    ["brewhaus.com.au.json", "seosem.com.au.json", "hero-demo.com.au.json", "landing-demo.com.au.json"]

  /** The subtitle used when neither the old box nor the domain has one. */
  const DefaultSubtitle := "Your premium Australian domain. Coming soon."

  /** `config.contentBoxes?.main?.content?.title || <generated title>` */
  function SimplifiedTitle(config: Json): (r: Result<Json>)
    ensures var kept := ValueAt(Prop(config, "contentBoxes"), ["main", "content", "title"]);
      && (TruthyOpt(kept) ==> r == Success(kept.value))
      && (!TruthyOpt(kept) ==> (r.Failure? <==> WelcomeTitle(Prop(config, "domain")).Failure?))
      && (!TruthyOpt(kept) && r.Success? ==> r.value == JStr(WelcomeTitle(Prop(config, "domain")).value))
    ensures r.Success? ==> Truthy(r.value)
  {
    var kept := ValueAt(Prop(config, "contentBoxes"), ["main", "content", "title"]);
    if TruthyOpt(kept) then Success(kept.value)
    else match WelcomeTitle(Prop(config, "domain"))
      case Failure(e) => Failure(e)
      case Success(title) => Success(JStr(title))
  }

  /** `config.contentBoxes?.main?.content?.subtitle || config.domain.description || <fixed>`;
   *  reading `description` of a missing domain throws. */
  function SimplifiedSubtitle(config: Json): (r: Result<Json>)
    ensures var kept := ValueAt(Prop(config, "contentBoxes"), ["main", "content", "subtitle"]);
      var domain := Prop(config, "domain");
      && (TruthyOpt(kept) ==> r == Success(kept.value))
      && (!TruthyOpt(kept) ==> (r.Failure? <==> Nullish(domain)))
      && (!TruthyOpt(kept) && !Nullish(domain) ==> r == Success(Or(Prop(domain.value, "description"), Some(JStr(DefaultSubtitle))).value))
    ensures r.Success? ==> Truthy(r.value)
  {
    var kept := ValueAt(Prop(config, "contentBoxes"), ["main", "content", "subtitle"]);
    var domain := Prop(config, "domain");
    if TruthyOpt(kept) then Success(kept.value)
    else if Nullish(domain) then Failure("TypeError")
    else Success(Or(Prop(domain.value, "description"), Some(JStr(DefaultSubtitle))).value)
  }

  /** The configuration after the simplification: its content boxes replaced by the one `main`
   *  box, or the error the title or the subtitle threw. */
  function Simplified(config: Json): (r: Result<Json>)
    requires config.JObj?
    ensures r.Failure? <==> SimplifiedTitle(config).Failure? || SimplifiedSubtitle(config).Failure?
    ensures r.Success? ==>
      && r.value.JObj?
      && Prop(r.value, "contentBoxes") == Some(JObj([("main", MainBox(SimplifiedTitle(config).value, SimplifiedSubtitle(config).value))]))
      && forall k :: k != "contentBoxes" ==> Prop(r.value, k) == Prop(config, k)
  {
    match SimplifiedTitle(config)
    case Failure(e) => Failure(e)
    case Success(title) =>
      match SimplifiedSubtitle(config)
      case Failure(e) => Failure(e)
      case Success(subtitle) =>
        var boxes := JObj([("main", MainBox(title, subtitle))]);
        PropPut(config, "contentBoxes", boxes);
        Success(JObj(Put(config.fields, "contentBoxes", boxes)))
  }

  /** What `SimplifyFile` yields for one file: the outcome and, when the file is written, the new configuration. */
  ghost predicate Describes(f: ConfigFile, o: FileOutcome) {
    && (f.fileName in SkipFiles ==> o == Skipped)
    && (!o.Untouched?)
    && (f.fileName !in SkipFiles && (f.parsed.None? || f.parsed.value == JNull) ==> o.Failed?)
    && (f.fileName !in SkipFiles ==>
        (o.Skipped? <==> f.parsed.Some? && f.parsed.value != JNull && !IsLanding(f.parsed.value)))
    && (f.fileName !in SkipFiles && f.parsed.Some? && f.parsed.value != JNull && IsLanding(f.parsed.value) ==>
        && f.parsed.value.JObj?
        && (o.Failed? <==> Simplified(f.parsed.value).Failure?)
        && (o.Written? ==> o.config == Simplified(f.parsed.value).value))
    && (o.Written? ==> f.parsed.Some? && f.parsed.value != JNull && IsLanding(f.parsed.value))
  }

  /** One file. A file with custom content is skipped before it is read, and so is any
   *  configuration whose template is not `landing`; a file that cannot be parsed, a `null`
   *  configuration, and a title or subtitle that reads a missing domain are errors. Every other
   *  landing configuration is written simplified. */
  method SimplifyFile(f: ConfigFile) returns (o: FileOutcome)
    ensures Describes(f, o)
  {
    if f.fileName in SkipFiles {
      return Skipped;
    }
    if f.parsed.None? {
      return Failed("SyntaxError");
    }
    var config := f.parsed.value;
    if config == JNull {
      return Failed("TypeError");
    }
    if !IsLanding(config) {
      return Skipped;
    }
    var boxes := Prop(config, "contentBoxes");
    var title := ValueAt(boxes, ["main", "content", "title"]);
    if !TruthyOpt(title) {
      var welcome := WelcomeTitle(Prop(config, "domain"));
      if welcome.Failure? {
        return Failed(welcome.error);
      }
      title := Some(JStr(welcome.value));
    }
    var subtitle := ValueAt(boxes, ["main", "content", "subtitle"]);
    if !TruthyOpt(subtitle) {
      var domain := Prop(config, "domain");
      if Nullish(domain) {
        return Failed("TypeError");
      }
      subtitle := Or(Prop(domain.value, "description"), Some(JStr(DefaultSubtitle)));
    }
    config := JObj(Put(config.fields, "contentBoxes", JObj([("main", MainBox(title.value, subtitle.value))])));
    return Written(config);
  }

  /** The simplification is idempotent: a simplified configuration is still a landing
   *  configuration, and simplifying it again changes nothing. */
  lemma SimplifyTwice(config: Json)
    requires config.JObj? && IsLanding(config) && Simplified(config).Success?
    ensures var c := Simplified(config).value;
      IsLanding(c) && Simplified(c) == Success(c)
  {
    var c := Simplified(config).value;
    var title := SimplifiedTitle(config).value;
    var subtitle := SimplifiedSubtitle(config).value;
    var boxes := JObj([("main", MainBox(title, subtitle))]);
    assert Prop(c, "template") == Prop(config, "template");
    MainBoxContent(title, subtitle);
    ValueAtAppend(Prop(c, "contentBoxes"), ["main"], ["content", "title"]);
    ValueAtAppend(Prop(c, "contentBoxes"), ["main"], ["content", "subtitle"]);
    assert ["main"] + ["content", "title"] == ["main", "content", "title"];
    assert ["main"] + ["content", "subtitle"] == ["main", "content", "subtitle"];
    assert SimplifiedTitle(c) == Success(title);
    assert SimplifiedSubtitle(c) == Success(subtitle);
    PutPut(config.fields, "contentBoxes", boxes, boxes);
  }
}
