/**
 * The template fix: a configuration whose template is not `landing` gets the landing type, a theme
 * outside the known ones becomes `basic`, and when either was fixed the content boxes of a hero
 * layout collapse into one `main` headline box. Only files that needed a fix are written.
 */
module FixTemplateIssues {
  import opened Wrappers
  import opened Json
  import opened ConfigLoader
  import opened ConfigScripts

  /** The protected files. */
  const SkipFiles: seq<string> := ["brewhaus.com.au.json", "seosem.com.au.json"]

  /** The themes the templates know. */
  const ValidThemes: seq<string> := ["basic", "professional", "terminal"]

  /** `validThemes.includes(theme)`: only one of the theme strings themselves is included. */
  predicate ValidTheme(theme: Json) {
    theme.JStr? && theme.s in ValidThemes
  }

  /** `template?.type !== 'landing'` */
  predicate TypeNeedsFix(template: Option<Json>) {
    OptProp(template, "type") != Some(JStr("landing"))
  }

  /** `template?.theme && !validThemes.includes(template.theme)` */
  predicate ThemeNeedsFix(template: Option<Json>) {
    var theme := OptProp(template, "theme");
    TruthyOpt(theme) && !ValidTheme(theme.value)
  }

  /** `needsFix` at the end of the template steps. */
  predicate NeedsFix(config: Json) {
    TypeNeedsFix(Prop(config, "template")) || ThemeNeedsFix(Prop(config, "template"))
  }

  /** `needsFix && config.contentBoxes && !config.contentBoxes.main` */
  predicate Collapses(config: Json) {
    var boxes := Prop(config, "contentBoxes");
    NeedsFix(config) && TruthyOpt(boxes) && !TruthyOpt(Prop(boxes.value, "main"))
  }

  /** The content of the `main-headline` box, else of the `hero-headline` box, else `{}`. */
  function HeadlineOf(boxes: Json): (h: Json)
    ensures TruthyOpt(ValueAt(Some(boxes), ["main-headline", "content"])) ==>
      h == ValueAt(Some(boxes), ["main-headline", "content"]).value
    ensures !TruthyOpt(ValueAt(Some(boxes), ["main-headline", "content"])) && TruthyOpt(ValueAt(Some(boxes), ["hero-headline", "content"])) ==>
      h == ValueAt(Some(boxes), ["hero-headline", "content"]).value
    ensures !TruthyOpt(ValueAt(Some(boxes), ["main-headline", "content"])) && !TruthyOpt(ValueAt(Some(boxes), ["hero-headline", "content"])) ==>
      h == JObj([])
  {
    Or(Or(ValueAt(Some(boxes), ["main-headline", "content"]), ValueAt(Some(boxes), ["hero-headline", "content"])), Some(JObj([]))).value
  }

  /** `headline.title || \`Welcome to ${config.domain.name || config.domain}\``; reading `name` of a
   *  missing domain throws. */
  function MainTitle(headline: Json, domain: Option<Json>): (r: Result<Json>)
    ensures TruthyOpt(Prop(headline, "title")) ==> r == Success(Prop(headline, "title").value)
    ensures !TruthyOpt(Prop(headline, "title")) ==> (r.Failure? <==> Nullish(domain))
    ensures !TruthyOpt(Prop(headline, "title")) && !Nullish(domain) ==>
      r == Success(JStr("Welcome to " + ToJsString(Or(Prop(domain.value, "name"), domain))))
  {
    var title := Prop(headline, "title");
    if TruthyOpt(title) then Success(title.value)
    else if Nullish(domain) then Failure("TypeError")
    else Success(JStr("Welcome to " + ToJsString(Or(Prop(domain.value, "name"), domain))))
  }

  /** `headline.subtitle || config.domain.description || "Coming soon"` */
  function MainSubtitle(headline: Json, domain: Option<Json>): (r: Result<Json>)
    ensures TruthyOpt(Prop(headline, "subtitle")) ==> r == Success(Prop(headline, "subtitle").value)
    ensures !TruthyOpt(Prop(headline, "subtitle")) ==> (r.Failure? <==> Nullish(domain))
    ensures !TruthyOpt(Prop(headline, "subtitle")) && !Nullish(domain) && TruthyOpt(Prop(domain.value, "description")) ==>
      r == Success(Prop(domain.value, "description").value)
    ensures !TruthyOpt(Prop(headline, "subtitle")) && !Nullish(domain) && !TruthyOpt(Prop(domain.value, "description")) ==>
      r == Success(JStr("Coming soon"))
  {
    var subtitle := Prop(headline, "subtitle");
    if TruthyOpt(subtitle) then Success(subtitle.value)
    else if Nullish(domain) then Failure("TypeError")
    else Success(Or(Prop(domain.value, "description"), Some(JStr("Coming soon"))).value)
  }

  /** Collapsing the boxes throws when a fallback reads the domain of a configuration without one. */
  predicate CollapseFails(config: Json) {
    && Collapses(config) && Nullish(Prop(config, "domain"))
    && var h := HeadlineOf(Prop(config, "contentBoxes").value);
       !TruthyOpt(Prop(h, "title")) || !TruthyOpt(Prop(h, "subtitle"))
  }

  /** The collapsed boxes of a configuration whose collapse does not throw. */
  function CollapsedBoxes(config: Json): Json
    requires Collapses(config) && !CollapseFails(config)
  {
    var h := HeadlineOf(Prop(config, "contentBoxes").value);
    var domain := Prop(config, "domain");
    JObj([("main", MainBox(MainTitle(h, domain).value, MainSubtitle(h, domain).value))])
  }

  /** The template after the fixes: an object template gets `type` landing and, when its theme
   *  is invalid, theme `basic`; any other template value is left as it is. */
  ghost predicate TemplateFixed(before: Option<Json>, after: Option<Json>): (fixed: bool)
    ensures fixed && before.Some? && before.value.JObj? ==> !TypeNeedsFix(after) && !ThemeNeedsFix(after)
  {
    && (before.Some? && before.value.JObj? ==>
          && after.Some? && after.value.JObj?
          && Prop(after.value, "type") == Some(JStr("landing"))
          && (var theme := Prop(before.value, "theme");
              Prop(after.value, "theme") == if TruthyOpt(theme) && !ValidTheme(theme.value) then Some(JStr("basic")) else theme)
          && forall k :: k != "type" && k != "theme" ==> Prop(after.value, k) == Prop(before.value, k))
    && (!(before.Some? && before.value.JObj?) ==> after == before)
  }

  /** The template steps on `config.template`: a type other than `landing` is set to `landing`,
   *  which throws on a missing template, then a truthy theme outside the known ones is set to
   *  `basic`. `needsFix` tells whether either step applied. */
  method FixTemplateSection(template: Option<Json>) returns (r: Result<Json>, needsFix: bool)
    ensures r.Failure? <==> Nullish(template)
    ensures r.Success? ==> (needsFix <==> TypeNeedsFix(template) || ThemeNeedsFix(template))
    ensures r.Success? ==> TemplateFixed(template, Some(r.value))
  {
    needsFix := false;
    var t := template;
    if TypeNeedsFix(t) {
      if Nullish(t) {
        return Failure("TypeError"), true;
      }
      if t.value.JObj? {
        PropPut(t.value, "type", JStr("landing"));
      }
      t := Some(Assign(t, "type", JStr("landing"), false).value);
      needsFix := true;
    }
    assert !Nullish(t);
    var theme := OptProp(t, "theme");
    if TruthyOpt(theme) && !ValidTheme(theme.value) {
      if t.value.JObj? {
        PropPut(t.value, "theme", JStr("basic"));
      }
      t := Some(Assign(t, "theme", JStr("basic"), false).value);
      needsFix := true;
    }
    return Success(t.value), needsFix;
  }

  /** What `FixTemplateFile` yields for one file: the outcome and, when the file is written, the new configuration. */
  ghost predicate Describes(f: ConfigFile, o: FileOutcome) {
    && (f.fileName in SkipFiles ==> o == Skipped)
    && (f.fileName !in SkipFiles ==> !o.Skipped?)
    && (f.fileName !in SkipFiles && f.parsed.None? ==> o.Failed?)
    && (f.fileName !in SkipFiles && f.parsed.Some? ==>
        var config := f.parsed.value;
        && (o.Failed? <==> config == JNull || Nullish(Prop(config, "template")) || CollapseFails(config))
        && (o.Written? <==> !o.Failed? && NeedsFix(config)))
    && (o.Written? ==>
        var config := f.parsed.value;
        var c := o.config;
        && c.JObj?
        && TemplateFixed(Prop(config, "template"), Prop(c, "template"))
        && (Collapses(config) ==> Prop(c, "contentBoxes") == Some(CollapsedBoxes(config)))
        && (!Collapses(config) ==> Prop(c, "contentBoxes") == Prop(config, "contentBoxes"))
        && forall k :: k != "template" && k != "contentBoxes" ==> Prop(c, k) == Prop(config, k))
  }

  /** One file. A protected file is skipped; a file that cannot be parsed, a `null` configuration,
   *  a template type to fix on a missing template, and a collapse that reads the missing domain
   *  throw and are counted as errors. Otherwise the file is written exactly when a fix was needed,
   *  and only the template and the content boxes change. */
  method FixTemplateFile(f: ConfigFile) returns (o: FileOutcome)
    ensures Describes(f, o)
  {
    if f.fileName in SkipFiles {
      return Skipped;
    }
    if f.parsed.None? {
      return Failed("SyntaxError");
    }
    var config := f.parsed.value;
    if config == JNull {
      return Failed("TypeError");
    }
    var before := config;
    var template, needsFix := FixTemplateSection(Prop(config, "template"));
    if template.Failure? {
      return Failed(template.error);
    }
    PropPut(config, "template", template.value);
    config := JObj(Put(config.fields, "template", template.value));
    var boxes := Prop(config, "contentBoxes");
    if needsFix && TruthyOpt(boxes) && !TruthyOpt(Prop(boxes.value, "main")) {
      var headline := HeadlineOf(boxes.value);
      var domain := Prop(config, "domain");
      var title := MainTitle(headline, domain);
      if title.Failure? {
        return Failed(title.error);
      }
      var subtitle := MainSubtitle(headline, domain);
      if subtitle.Failure? {
        return Failed(subtitle.error);
      }
      var collapsed := JObj([("main", MainBox(title.value, subtitle.value))]);
      assert collapsed == CollapsedBoxes(before);
      PropPut(config, "contentBoxes", collapsed);
      config := JObj(Put(config.fields, "contentBoxes", collapsed));
    }
    if needsFix {
      return Written(config);
    }
    return Untouched;
  }

  /** A configuration written with an object template has nothing left to fix: a second run
   *  leaves it untouched. */
  lemma SecondRunUntouched(config: Json, c: Json)
    requires Prop(config, "template").Some? && Prop(config, "template").value.JObj?
    requires TemplateFixed(Prop(config, "template"), Prop(c, "template"))
    ensures !NeedsFix(c)
  {
  }
}
