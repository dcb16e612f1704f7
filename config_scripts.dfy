/**
 * What the configuration maintenance scripts share. Each visits the files of the configuration
 * directory once, does one of four things with each file and counts what it did. A file is
 * given with the value its content parsed to (None when reading or parsing it threw).
 */
module ConfigScripts {
  import opened Wrappers
  import opened Strings
  import opened Seqs
  import opened Json

  /** What a script did with one file: wrote a new configuration, skipped the file, left it as it
   *  was, or caught an error while processing it. */
  datatype FileOutcome = Written(config: Json) | Skipped | Untouched | Failed(error: string)

  predicate IsWritten(o: FileOutcome) {
    o.Written?
  }

  predicate IsSkipped(o: FileOutcome) {
    o.Skipped?
  }

  predicate IsUntouched(o: FileOutcome) {
    o.Untouched?
  }

  predicate IsFailed(o: FileOutcome) {
    o.Failed?
  }

  /** The counters a script keeps while it runs: `updated`, `skipped`, the files left as they were,
   *  and `errors`. */
  datatype Tally = Tally(updated: nat, skipped: nat, untouched: nat, errors: nat)

  /** The counters after one more file. */
  function Count(t: Tally, o: FileOutcome): (r: Tally)
    ensures r.updated + r.skipped + r.untouched + r.errors == t.updated + t.skipped + t.untouched + t.errors + 1
  {
    match o
    case Written(_) => t.(updated := t.updated + 1)
    case Skipped => t.(skipped := t.skipped + 1)
    case Untouched => t.(untouched := t.untouched + 1)
    case Failed(_) => t.(errors := t.errors + 1)
  }

  /** The counters after a run whose files ended as `os`: every file is counted exactly once. */
  function TallyOf(os: seq<FileOutcome>): (t: Tally)
    ensures t.updated + t.skipped + t.untouched + t.errors == |os|
  {
    if |os| == 0 then Tally(0, 0, 0, 0) else Count(TallyOf(os[..|os| - 1]), os[|os| - 1])
  }

  /** Each counter is the number of files that ended its way. */
  lemma {:induction false} TallyCounts(os: seq<FileOutcome>)
    ensures TallyOf(os) == Tally(CountIf(os, IsWritten), CountIf(os, IsSkipped), CountIf(os, IsUntouched), CountIf(os, IsFailed))
  {
    if |os| > 0 {
      TallyCounts(os[..|os| - 1]);
    }
  }

  /** Counting one more file extends the tally of the files before it. */
  lemma TallyAppend(os: seq<FileOutcome>, o: FileOutcome)
    ensures TallyOf(os + [o]) == Count(TallyOf(os), o)
  {
    assert (os + [o])[..|os|] == os;
  }

  /** `name.replace('.com.au', '').replace('.net.au', '')`: the domain without its suffix. */
  function DomainBase(domainName: string): string {
    ReplaceFirst(ReplaceFirst(domainName, ".com.au", ""), ".net.au", "")
  }

  /** `base.split('-').map(w => w.charAt(0).toUpperCase() + w.slice(1)).join(' ')` */
  function Words(base: string): string {
    Join(CapitalizeAll(Split(base, '-')), " ")
  }

  /** The display name of a domain: its base, split at `-`, each word capitalised. */
  function DisplayName(domainName: string): string {
    Words(DomainBase(domainName))
  }

  /** The words replace each `-` by a space and capitalise the letter after it: no `-` is left
   *  and the length is that of the base. */
  lemma WordsOfBase(base: string)
    ensures '-' !in Words(base)
    ensures |Words(base)| == |base|
  {
    SplitPartsLackSeparator(base, '-');
    CapitalizeAllKeeps(Split(base, '-'), '-');
    JoinChars(CapitalizeAll(Split(base, '-')), " ");
    JoinSplit(base, '-');
    JoinSameLengths(Split(base, '-'), CapitalizeAll(Split(base, '-')), "-", " ");
  }

  /** A one-word name is only capitalised. */
  lemma OneWord(base: string)
    requires '-' !in base
    ensures Words(base) == Capitalize(base)
  {
    SplitWithoutSeparator(base, '-');
  }

  /** `config.template?.type === 'landing'`, on a configuration that is not `null`. */
  predicate IsLanding(config: Json) {
    OptProp(Prop(config, "template"), "type") == Some(JStr("landing"))
  }

  /** The generated title `Welcome to <display name of config.domain.name>`. Reading `name` of a
   *  missing domain throws, and so does calling `replace` on a name that is not a string. The
   *  display name keeps no `-`. */
  function WelcomeTitle(domain: Option<Json>): (r: Result<string>)
    ensures r.Success? <==> !Nullish(domain) && Prop(domain.value, "name").Some? && Prop(domain.value, "name").value.JStr?
    ensures r.Success? ==> var name := Prop(domain.value, "name").value.s;
      && r.value == "Welcome to " + DisplayName(name)
      && '-' !in r.value[|"Welcome to "|..]
      && |r.value| == |"Welcome to "| + |DomainBase(name)|
  {
    if Nullish(domain) then Failure("TypeError")
    else match Prop(domain.value, "name")
      case Some(JStr(name)) =>
        WordsOfBase(DomainBase(name));
        assert ("Welcome to " + DisplayName(name))[|"Welcome to "|..] == DisplayName(name);
        Success("Welcome to " + DisplayName(name))
      case _ => Failure("TypeError")
  }

  /** The single `main` headline box of the landing layout. */
  function MainBox(title: Json, subtitle: Json): Json {
    JObj([("type", JStr("headline")), ("position", JStr("main")),
          ("content", JObj([("title", title), ("subtitle", subtitle)]))])
  }

  /** The title and subtitle of the `main` box read back as they were given. */
  lemma MainBoxContent(title: Json, subtitle: Json)
    ensures ValueAt(Some(MainBox(title, subtitle)), ["content", "title"]) == Some(title)
    ensures ValueAt(Some(MainBox(title, subtitle)), ["content", "subtitle"]) == Some(subtitle)
  {
    var box := MainBox(title, subtitle);
    LookupAt(box.fields, "content", 2);
    LookupAt(box.fields[2].1.fields, "subtitle", 1);
  }
}
