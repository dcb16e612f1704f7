/**
 * A run of one maintenance script: every file of the configuration directory is processed in
 * turn, an error in one file is caught and counted and the run goes on with the next, and the
 * counters are reported at the end.
 */
module ScriptRuns {
  import opened Wrappers
  import opened Json
  import opened ConfigLoader
  import opened ConfigScripts
  import opened Seqs
  import StandardizeConfigs
  import FixTemplateIssues
  import FixLandingContent
  import SimplifyLandingContent
  import EnableDomainSale
  import RemoveDomainInquiry
  import MoveSeoToTop

  /** The scripts that visit every file and catch per-file errors. */
  datatype Script = Standardize | FixTemplate | FixLanding | Simplify | EnableSale | RemoveInquiry | MoveSeo

  /** The files a script skips by name before reading them. */
  function SkipList(s: Script): seq<string> {
    match s
    case Standardize => StandardizeConfigs.SkipFiles
    case FixTemplate => FixTemplateIssues.SkipFiles
    case FixLanding => FixLandingContent.SkipFiles
    case Simplify => SimplifyLandingContent.SkipFiles
    case EnableSale => EnableDomainSale.SkipFiles
    case RemoveInquiry => []
    case MoveSeo => []
  }

  /** The outcomes a script can have for one file: only the template fix and the inquiry removal
   *  leave a file as it was, and only scripts with a skip rule skip. */
  predicate Possible(s: Script, o: FileOutcome) {
    match s
    case FixTemplate => true
    case RemoveInquiry => !o.Skipped?
    case MoveSeo => o.Written? || o.Failed?
    case _ => !o.Untouched?
  }

  /** What `JSON.parse` gives: no object repeats a key. */
  predicate WellParsed(f: ConfigFile) {
    f.parsed.Some? && f.parsed.value.JObj? ==> UniqueKeys(f.parsed.value.fields)
  }

  /** What the script's per-file step promises about the outcome of one file. */
  ghost predicate Describes(s: Script, f: ConfigFile, o: FileOutcome) {
    match s
    case Standardize => StandardizeConfigs.Describes(f, o)
    case FixTemplate => FixTemplateIssues.Describes(f, o)
    case FixLanding => FixLandingContent.Describes(f, o)
    case Simplify => SimplifyLandingContent.Describes(f, o)
    case EnableSale => EnableDomainSale.Describes(f, o)
    case RemoveInquiry => RemoveDomainInquiry.Describes(f, o)
    case MoveSeo => MoveSeoToTop.Describes(f, o)
  }

  /** Which counter a file moves. */
  datatype Verdict = Update | Skip | Keep | Error

  function VerdictOf(o: FileOutcome): Verdict {
    match o
    case Written(_) => Update
    case Skipped => Skip
    case Untouched => Keep
    case Failed(_) => Error
  }

  /** A file that parses, to something other than `null`. */
  predicate Readable(f: ConfigFile) {
    f.parsed.Some? && f.parsed.value != JNull
  }

  /** The counter each script moves for a file, read off the file alone, branch by branch as the
   *  script's `forEach` body takes them: the skip list first, then the parse, then the script's
   *  own checks. */
  function Classify(s: Script, f: ConfigFile): Verdict {
    match s
    case Standardize =>
      if f.fileName in StandardizeConfigs.SkipFiles then Skip
      else if !Readable(f) then Error
      else if StandardizeConfigs.InNewFormat(f.parsed.value) then Skip
      else Update
    case FixTemplate =>
      if f.fileName in FixTemplateIssues.SkipFiles then Skip
      else if f.parsed.None? || TemplateFixFails(f.parsed.value) then Error
      else if FixTemplateIssues.NeedsFix(f.parsed.value) then Update
      else Keep
    case FixLanding =>
      if f.fileName in FixLandingContent.SkipFiles then Skip
      else if !Readable(f) then Error
      else if !IsLanding(f.parsed.value) then Skip
      else if HeadlineFails(f.parsed.value) then Error
      else Update
    case Simplify =>
      if f.fileName in SimplifyLandingContent.SkipFiles then Skip
      else if !Readable(f) then Error
      else if !IsLanding(f.parsed.value) then Skip
      else if SimplifyLandingContent.Simplified(f.parsed.value).Failure? then Error
      else Update
    case EnableSale =>
      if f.fileName in EnableDomainSale.SkipFiles then Skip
      else if !Readable(f) then Error
      else Update
    case RemoveInquiry =>
      if !Readable(f) then Error
      else if RemoveDomainInquiry.HasInquiry(f.parsed.value) then Update
      else Keep
    case MoveSeo =>
      if !Readable(f) then Error
      else Update
  }

  /** The template fix throws on a `null` configuration, on a template type to set on a missing
   *  template, and on a collapse that reads the missing domain. */
  predicate TemplateFixFails(config: Json) {
    config == JNull || Nullish(Prop(config, "template")) || FixTemplateIssues.CollapseFails(config)
  }

  /** The landing fix throws when it has no headline and cannot generate one. */
  predicate HeadlineFails(config: Json) {
    var headline := ValueAt(Prop(config, "contentBoxes"), ["main-headline", "content"]);
    !TruthyOpt(headline) && FixLandingContent.GeneratedMain(Prop(config, "domain")).Failure?
  }

  /** Whatever the per-file step does, the counter it moves is the one the file alone decides. */
  lemma DescribedVerdict(s: Script, f: ConfigFile, o: FileOutcome)
    requires Describes(s, f, o)
    ensures VerdictOf(o) == Classify(s, f)
  {
  }

  /** The counter named by a verdict. */
  function Counter(t: Tally, v: Verdict): nat {
    match v
    case Update => t.updated
    case Skip => t.skipped
    case Keep => t.untouched
    case Error => t.errors
  }

  /** The counters after one more file with verdict `v`. */
  function Bump(t: Tally, v: Verdict): (r: Tally)
    ensures Counter(r, v) == Counter(t, v) + 1
    ensures forall w :: w != v ==> Counter(r, w) == Counter(t, w)
  {
    match v
    case Update => t.(updated := t.updated + 1)
    case Skip => t.(skipped := t.skipped + 1)
    case Keep => t.(untouched := t.untouched + 1)
    case Error => t.(errors := t.errors + 1)
  }

  /** The counters a run over `files` must report, computed from the files alone. */
  function Expected(s: Script, files: seq<ConfigFile>): Tally {
    if |files| == 0 then Tally(0, 0, 0, 0)
    else Bump(Expected(s, files[..|files| - 1]), Classify(s, files[|files| - 1]))
  }

  /** Each counter of `Expected` is the number of files that the script sends its way. */
  lemma {:induction false} ExpectedCount(s: Script, files: seq<ConfigFile>, v: Verdict, p: ConfigFile -> bool)
    requires forall f :: p(f) <==> Classify(s, f) == v
    ensures Counter(Expected(s, files), v) == CountIf(files, p)
  {
    if |files| > 0 {
      ExpectedCount(s, files[..|files| - 1], v, p);
    }
  }

  /** The body of the script's `forEach` for one file. */
  method ProcessFile(s: Script, f: ConfigFile) returns (o: FileOutcome)
    requires WellParsed(f)
    ensures Possible(s, o)
    ensures f.fileName in SkipList(s) ==> o == Skipped
    ensures f.parsed.None? && f.fileName !in SkipList(s) ==> o.Failed?
    ensures Describes(s, f, o)
  {
    match s
    case Standardize => o := StandardizeConfigs.StandardizeFile(f);
    case FixTemplate => o := FixTemplateIssues.FixTemplateFile(f);
    case FixLanding => o := FixLandingContent.FixLandingFile(f);
    case Simplify => o := SimplifyLandingContent.SimplifyFile(f);
    case EnableSale => o := EnableDomainSale.EnableSaleFile(f);
    case RemoveInquiry => o := RemoveDomainInquiry.RemoveInquiryFile(f);
    case MoveSeo => o := MoveSeoToTop.MoveSeoFile(f);
  }

  /** The whole run. Every file gets exactly one outcome, in order, so an error in one file does
   *  not stop the others; the counters are those of the outcomes. The template fix reports
   *  `files - fixed - skipped - errors` as already correct, which is the number of files it
   *  left as they were; the scripts that rewrite every file they keep leave none untouched, and
   *  the inquiry removal and the reordering skip none. */
  method RunScript(s: Script, files: seq<ConfigFile>) returns (outcomes: seq<FileOutcome>, t: Tally)
    requires forall i :: 0 <= i < |files| ==> WellParsed(files[i])
    ensures |outcomes| == |files|
    ensures t == TallyOf(outcomes)
    ensures t.updated + t.skipped + t.untouched + t.errors == |files|
    ensures t.untouched == |files| - t.updated - t.skipped - t.errors
    ensures forall i :: 0 <= i < |files| ==> Possible(s, outcomes[i])
    ensures forall i :: 0 <= i < |files| && files[i].fileName in SkipList(s) ==> outcomes[i] == Skipped
    ensures forall i :: 0 <= i < |files| && files[i].fileName !in SkipList(s) && files[i].parsed.None? ==> outcomes[i].Failed?
    ensures s != FixTemplate && s != RemoveInquiry ==> t.untouched == 0
    ensures s == RemoveInquiry || s == MoveSeo ==> t.skipped == 0
    ensures forall i :: 0 <= i < |files| ==> Describes(s, files[i], outcomes[i])
    ensures t == Expected(s, files)
  {
    outcomes := [];
    t := Tally(0, 0, 0, 0);
    var i := 0;
    while i < |files|
      invariant 0 <= i <= |files|
      invariant |outcomes| == i
      invariant RunSoFar(s, files, outcomes, t)
    {
      outcomes, t := RunStep(s, files, outcomes, t);
      i := i + 1;
    }
    assert files[..i] == files;
    AllDescribedAt(s, files, outcomes);
    RunBasics(s, files, outcomes);
  }

  /** Each of the first `|outcomes|` files has the outcome its script's step describes. */
  ghost predicate AllDescribed(s: Script, files: seq<ConfigFile>, outcomes: seq<FileOutcome>)
    requires |outcomes| <= |files|
    decreases |outcomes|
  {
    |outcomes| == 0
    || (AllDescribed(s, files, outcomes[..|outcomes| - 1]) && Describes(s, files[|outcomes| - 1], outcomes[|outcomes| - 1]))
  }

  lemma {:induction false} AllDescribedAt(s: Script, files: seq<ConfigFile>, outcomes: seq<FileOutcome>)
    requires |outcomes| <= |files| && AllDescribed(s, files, outcomes)
    ensures forall i :: 0 <= i < |outcomes| ==> Describes(s, files[i], outcomes[i])
    decreases |outcomes|
  {
    if |outcomes| > 0 {
      AllDescribedAt(s, files, outcomes[..|outcomes| - 1]);
    }
  }

  /** The state of a run after the first `|outcomes|` files. */
  ghost predicate RunSoFar(s: Script, files: seq<ConfigFile>, outcomes: seq<FileOutcome>, t: Tally) {
    && |outcomes| <= |files|
    && t == TallyOf(outcomes)
    && t == Expected(s, files[..|outcomes|])
    && AllDescribed(s, files, outcomes)
    && (s != FixTemplate && s != RemoveInquiry ==> t.untouched == 0)
    && (s == RemoveInquiry || s == MoveSeo ==> t.skipped == 0)
  }

  /** One turn of the run's loop: the next file is processed and counted. */
  method RunStep(s: Script, files: seq<ConfigFile>, outcomes: seq<FileOutcome>, t: Tally)
    returns (outcomes': seq<FileOutcome>, t': Tally)
    requires |outcomes| < |files|
    requires WellParsed(files[|outcomes|])
    requires RunSoFar(s, files, outcomes, t)
    ensures |outcomes'| == |outcomes| + 1
    ensures RunSoFar(s, files, outcomes', t')
  {
    var o := ProcessFile(s, files[|outcomes|]);
    CountOne(s, files, outcomes, t, o);
    outcomes' := outcomes + [o];
    t' := Count(t, o);
  }

  /** Counting the next file's outcome keeps the state of the run. */
  lemma CountOne(s: Script, files: seq<ConfigFile>, outcomes: seq<FileOutcome>, t: Tally, o: FileOutcome)
    requires |outcomes| < |files|
    requires RunSoFar(s, files, outcomes, t)
    requires Possible(s, o) && Describes(s, files[|outcomes|], o)
    ensures RunSoFar(s, files, outcomes + [o], Count(t, o))
  {
    var i := |outcomes|;
    TallyAppend(outcomes, o);
    CountPossible(s, t, o);
    DescribedVerdict(s, files[i], o);
    assert files[..i + 1][..i] == files[..i];
    assert (outcomes + [o])[..i] == outcomes;
  }

  /** What `DescribedBasics` gives for one file, for every file of a run. */
  lemma RunBasics(s: Script, files: seq<ConfigFile>, outcomes: seq<FileOutcome>)
    requires |outcomes| == |files|
    requires forall i :: 0 <= i < |files| ==> Describes(s, files[i], outcomes[i])
    ensures forall i :: 0 <= i < |files| ==> Possible(s, outcomes[i])
    ensures forall i :: 0 <= i < |files| && files[i].fileName in SkipList(s) ==> outcomes[i] == Skipped
    ensures forall i :: 0 <= i < |files| && files[i].fileName !in SkipList(s) && files[i].parsed.None? ==> outcomes[i].Failed?
  {
    forall i | 0 <= i < |files|
      ensures Possible(s, outcomes[i])
      ensures files[i].fileName in SkipList(s) ==> outcomes[i] == Skipped
      ensures files[i].fileName !in SkipList(s) && files[i].parsed.None? ==> outcomes[i].Failed?
    {
      DescribedBasics(s, files[i], outcomes[i]);
    }
  }

  /** Every script's per-file step gives an outcome the script can have, skips what its skip list
   *  names, and fails on a file that does not parse. */
  lemma DescribedBasics(s: Script, f: ConfigFile, o: FileOutcome)
    requires Describes(s, f, o)
    ensures Possible(s, o)
    ensures f.fileName in SkipList(s) ==> o == Skipped
    ensures f.fileName !in SkipList(s) && f.parsed.None? ==> o.Failed?
  {
  }

  /** Counting an outcome the script can have keeps the counters it never moves at zero. */
  lemma CountPossible(s: Script, t: Tally, o: FileOutcome)
    requires Possible(s, o)
    ensures s != FixTemplate && s != RemoveInquiry ==> Count(t, o).untouched == t.untouched
    ensures s == RemoveInquiry || s == MoveSeo ==> Count(t, o).skipped == t.skipped
  {
  }

  /** The inquiry removal updates exactly the files whose configuration has the flag defined,
   *  leaves the other readable files alone, and counts the rest as errors. */
  lemma RemoveInquiryCounts(files: seq<ConfigFile>)
    ensures Expected(RemoveInquiry, files)
         == Tally(CountIf(files, InquiryFlagged), 0, CountIf(files, InquiryFree), CountIf(files, Unreadable))
  {
    ExpectedCount(RemoveInquiry, files, Update, InquiryFlagged);
    ExpectedCount(RemoveInquiry, files, Keep, InquiryFree);
    ExpectedCount(RemoveInquiry, files, Error, Unreadable);
    ExpectedCount(RemoveInquiry, files, Skip, _ => false);
    NoneCounted(files);
  }

  predicate InquiryFlagged(f: ConfigFile) {
    Readable(f) && RemoveDomainInquiry.HasInquiry(f.parsed.value)
  }

  predicate InquiryFree(f: ConfigFile) {
    Readable(f) && !RemoveDomainInquiry.HasInquiry(f.parsed.value)
  }

  predicate Unreadable(f: ConfigFile) {
    !Readable(f)
  }

  /** No file satisfies the predicate that is always false. */
  lemma {:induction false} NoneCounted(files: seq<ConfigFile>)
    ensures CountIf(files, _ => false) == 0
  {
    if |files| > 0 {
      NoneCounted(files[..|files| - 1]);
    }
  }

  /** The template fix skips the protected files, fixes the readable ones that need a fix, reports
   *  the readable ones that need none as already correct, and counts the rest as errors. */
  lemma FixTemplateCounts(files: seq<ConfigFile>)
    ensures Expected(FixTemplate, files)
         == Tally(CountIf(files, TemplateNeedsFix), CountIf(files, TemplateProtected),
                  CountIf(files, TemplateCorrect), CountIf(files, TemplateBroken))
  {
    ExpectedCount(FixTemplate, files, Update, TemplateNeedsFix);
    ExpectedCount(FixTemplate, files, Skip, TemplateProtected);
    ExpectedCount(FixTemplate, files, Keep, TemplateCorrect);
    ExpectedCount(FixTemplate, files, Error, TemplateBroken);
  }

  predicate TemplateProtected(f: ConfigFile) {
    f.fileName in FixTemplateIssues.SkipFiles
  }

  predicate TemplateBroken(f: ConfigFile) {
    !TemplateProtected(f) && (f.parsed.None? || TemplateFixFails(f.parsed.value))
  }

  predicate TemplateNeedsFix(f: ConfigFile) {
    !TemplateProtected(f) && !TemplateBroken(f) && FixTemplateIssues.NeedsFix(f.parsed.value)
  }

  predicate TemplateCorrect(f: ConfigFile) {
    !TemplateProtected(f) && !TemplateBroken(f) && !FixTemplateIssues.NeedsFix(f.parsed.value)
  }

  /** Enabling the sale skips the protected files, writes every other readable one, and counts
   *  the rest as errors. */
  lemma EnableSaleCounts(files: seq<ConfigFile>)
    ensures Expected(EnableSale, files)
         == Tally(CountIf(files, SaleWritable), CountIf(files, SaleProtected), 0, CountIf(files, SaleBroken))
  {
    ExpectedCount(EnableSale, files, Update, SaleWritable);
    ExpectedCount(EnableSale, files, Skip, SaleProtected);
    ExpectedCount(EnableSale, files, Error, SaleBroken);
    ExpectedCount(EnableSale, files, Keep, _ => false);
    NoneCounted(files);
  }

  predicate SaleProtected(f: ConfigFile) {
    f.fileName in EnableDomainSale.SkipFiles
  }

  predicate SaleWritable(f: ConfigFile) {
    !SaleProtected(f) && Readable(f)
  }

  predicate SaleBroken(f: ConfigFile) {
    !SaleProtected(f) && !Readable(f)
  }

  /** The reordering rewrites every readable file and counts the rest as errors. */
  lemma MoveSeoCounts(files: seq<ConfigFile>)
    ensures Expected(MoveSeo, files) == Tally(CountIf(files, Readable), 0, 0, CountIf(files, Unreadable))
  {
    ExpectedCount(MoveSeo, files, Update, Readable);
    ExpectedCount(MoveSeo, files, Error, Unreadable);
    ExpectedCount(MoveSeo, files, Skip, _ => false);
    ExpectedCount(MoveSeo, files, Keep, _ => false);
    NoneCounted(files);
  }

  /** The standardisation skips the protected files and those already in the new format, rewrites
   *  every other readable one, and counts the rest as errors. */
  lemma StandardizeCounts(files: seq<ConfigFile>)
    ensures Expected(Standardize, files)
         == Tally(CountIf(files, NeedsStandardizing), CountIf(files, StandardizeSkips), 0, CountIf(files, StandardizeBroken))
  {
    ExpectedCount(Standardize, files, Update, NeedsStandardizing);
    ExpectedCount(Standardize, files, Skip, StandardizeSkips);
    ExpectedCount(Standardize, files, Error, StandardizeBroken);
    ExpectedCount(Standardize, files, Keep, _ => false);
    NoneCounted(files);
  }

  predicate StandardizeSkips(f: ConfigFile) {
    f.fileName in StandardizeConfigs.SkipFiles || (Readable(f) && StandardizeConfigs.InNewFormat(f.parsed.value))
  }

  predicate StandardizeBroken(f: ConfigFile) {
    f.fileName !in StandardizeConfigs.SkipFiles && !Readable(f)
  }

  predicate NeedsStandardizing(f: ConfigFile) {
    !StandardizeSkips(f) && !StandardizeBroken(f)
  }
}
