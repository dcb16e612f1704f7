/**
 * The terminal log content box: a list of scripted commands played one after another on a
 * timer, a bounded list of displayed entries, an optional input line, and the colour each output
 * line is shown in. Clock readings are parameters; the entry ids are left out.
 */
module TerminalLog {
  import opened Wrappers
  import opened Strings

  /** A scripted command of the box content. */
  datatype Command = Command(command: string, output: seq<string>, kind: Option<string>)

  /** The box content as configured: every setting may be missing. */
  datatype LogContent = LogContent(
    title: Option<string>, commands: Option<seq<Command>>, autoPlay: Option<bool>,
    playInterval: Option<int>, maxCommands: Option<int>, allowInput: Option<bool>,
    loop: Option<bool>, showTimestamp: Option<bool>)

  /** The settings after the destructuring defaults are applied. */
  datatype Settings = Settings(
    title: string, commands: seq<Command>, autoPlay: bool, playInterval: int,
    maxCommands: int, allowInput: bool, loop: bool, showTimestamp: bool)

  /** Destructuring with defaults: a missing setting takes its default, a given one is kept. */
  function WithDefaults(c: LogContent): (s: Settings) {
    Settings(
      c.title.GetOr("terminal@system"), c.commands.GetOr([]), c.autoPlay.GetOr(true),
      c.playInterval.GetOr(5000), c.maxCommands.GetOr(10), c.allowInput.GetOr(false),
      c.loop.GetOr(true), c.showTimestamp.GetOr(true))
  }

  /** The defaults of a content that sets nothing. */
  lemma DefaultSettings()
    ensures WithDefaults(LogContent(None, None, None, None, None, None, None, None))
      == Settings("terminal@system", [], true, 5000, 10, false, true, true)
  {
  }

  /** Settings that are given win over the defaults, even when they are falsy. */
  lemma GivenSettingsKept(c: LogContent)
    requires c.commands.Some? && c.autoPlay.Some? && c.maxCommands.Some? && c.loop.Some?
    requires c.allowInput.Some? && c.showTimestamp.Some?
    ensures var s := WithDefaults(c);
      s.commands == c.commands.value && s.autoPlay == c.autoPlay.value && s.maxCommands == c.maxCommands.value
      && s.loop == c.loop.value && s.allowInput == c.allowInput.value && s.showTimestamp == c.showTimestamp.value
  {
  }

  /** `list.slice(-max)`: the last `max` entries for a positive bound, all of them for 0
   *  (`-0` is 0), and all but the first `-max` for a negative bound. */
  function KeepLast<T>(s: seq<T>, max: int): (r: seq<T>)
    ensures |r| <= |s| && r == s[|s| - |r|..]
    ensures max > 0 ==> |r| == if |s| < max then |s| else max
    ensures max == 0 ==> r == s
    ensures max < 0 ==> |r| == if -max < |s| then |s| + max else 0
  {
    if max > 0 then (if |s| > max then s[|s| - max..] else s)
    else if max == 0 then s
    else if -max < |s| then s[-max..] else []
  }

  /** `[...prev, x].slice(-max)` */
  function Append<T>(prev: seq<T>, x: T, max: int): seq<T> {
    KeepLast(prev + [x], max)
  }

  /** With a positive bound the list stays within it, ends with the new entry, and keeps the
   *  newest earlier entries in their order. */
  lemma AppendBounded<T>(prev: seq<T>, x: T, max: int)
    requires max >= 1
    ensures var r := Append(prev, x, max);
      1 <= |r| <= max && r[|r| - 1] == x && r[..|r| - 1] == prev[|prev| + 1 - |r|..]
  {
    var r := Append(prev, x, max);
    var s := prev + [x];
    assert r == s[|s| - |r|..];
    assert r[|r| - 1] == s[|s| - 1];
    assert r[..|r| - 1] == s[|s| - |r|..|s| - 1];
  }

  /** Below the bound nothing is dropped. */
  lemma AppendBelowBound<T>(prev: seq<T>, x: T, max: int)
    requires |prev| < max
    ensures Append(prev, x, max) == prev + [x]
  {
  }

  /** A bound of 0 keeps every entry. */
  lemma AppendUnbounded<T>(prev: seq<T>, x: T)
    ensures Append(prev, x, 0) == prev + [x]
  {
  }

  /** A displayed entry; the timestamp is present when timestamps are shown. */
  datatype Entry = Entry(command: string, output: seq<string>, kind: Option<string>, timestamp: Option<string>)

  /** The timestamp an entry gets at clock reading `time`. */
  function Stamp(s: Settings, time: string): (t: Option<string>)
    ensures t.Some? <==> s.showTimestamp
  {
    if s.showTimestamp then Some(time) else None
  }

  /** Whether the effect schedules autoplay at all. */
  predicate Scheduled(s: Settings) {
    s.autoPlay && |s.commands| > 0
  }

  /** The entry `addCommand(i)` shows: command `i` modulo the number of commands. */
  function Played(s: Settings, i: nat, time: string): (e: Entry)
    requires |s.commands| > 0
    ensures var c := s.commands[i % |s.commands|];
      e.command == c.command && e.output == c.output && e.kind == c.kind && e.timestamp == Stamp(s, time)
  {
    var c := s.commands[i % |s.commands|];
    Entry(c.command, c.output, c.kind, Stamp(s, time))
  }

  /** The entry a typed command shows. */
  function UserEntry(s: Settings, input: string, time: string): Entry {
    Entry(input, ["Command executed successfully", "Ready for next command..."], Some("success"), Stamp(s, time))
  }

  /** The box's state: the displayed entries, the command index, the input line, and whether the
   *  first-command timeout and the interval are pending. */
  datatype LogState = LogState(displayed: seq<Entry>, index: nat, input: string, pending: bool, ticking: bool)

  /** The state after the first render: nothing shown, and the timeout set when autoplay applies. */
  function Initial(s: Settings): (st: LogState)
    ensures st.displayed == [] && st.index == 0 && st.input == ""
    ensures st.pending <==> s.autoPlay && |s.commands| > 0
    ensures !st.ticking
  {
    LogState([], 0, "", Scheduled(s), false)
  }

  /** The invariant of the box: timers run only when autoplay applies, never both at once, and a
   *  positive bound bounds the displayed entries. */
  predicate Valid(s: Settings, st: LogState) {
    ((st.pending || st.ticking) ==> Scheduled(s))
    && !(st.pending && st.ticking)
    && (s.maxCommands >= 1 ==> |st.displayed| <= s.maxCommands)
  }

  /** The one-second timeout: command 0 is shown, the index becomes 1, the interval starts. */
  function AfterTimeout(s: Settings, st: LogState, time: string): LogState {
    if !st.pending || |s.commands| == 0 then st
    else st.(displayed := Append(st.displayed, Played(s, 0, time), s.maxCommands), index := 1,
             pending := false, ticking := true)
  }

  /** One interval tick: without looping, once the index reaches the number of commands the
   *  interval is cleared and nothing changes; otherwise the command at the index is shown and the
   *  index advances. */
  function AfterInterval(s: Settings, st: LogState, time: string): LogState {
    if !st.ticking || |s.commands| == 0 then st
    else if !s.loop && st.index >= |s.commands| then st.(ticking := false)
    else st.(displayed := Append(st.displayed, Played(s, st.index, time), s.maxCommands), index := st.index + 1)
  }

  /** A key press in the input line: Enter with a non-blank input, when input is allowed, shows the
   *  input as typed (untrimmed) and clears the input line. */
  function AfterKey(s: Settings, st: LogState, key: string, time: string): LogState {
    if key == "Enter" && !IsBlank(st.input) && s.allowInput then
      st.(displayed := Append(st.displayed, UserEntry(s, st.input, time), s.maxCommands), input := "")
    else st
  }

  /** The effect's cleanup and re-run when a dependency changes: both timers are cleared and the
   *  timeout is set again when autoplay applies; entries and index stay. */
  function AfterRestart(s: Settings, st: LogState): LogState {
    st.(pending := Scheduled(s), ticking := false)
  }

  /** The box's first state is valid. */
  lemma InitialValid(s: Settings)
    ensures Valid(s, Initial(s))
  {
  }

  /** Appending keeps a positive bound. */
  lemma AppendKeepsBound<T>(prev: seq<T>, x: T, max: int)
    requires max >= 1 ==> |prev| <= max
    ensures max >= 1 ==> |Append(prev, x, max)| <= max
  {
    if max >= 1 {
      AppendBounded(prev, x, max);
    }
  }

  /** The timeout keeps the invariant. */
  lemma TimeoutKeepsValid(s: Settings, st: LogState, time: string)
    requires Valid(s, st)
    ensures Valid(s, AfterTimeout(s, st, time))
  {
    if st.pending && |s.commands| > 0 {
      AppendKeepsBound(st.displayed, Played(s, 0, time), s.maxCommands);
    }
  }

  /** An interval tick keeps the invariant. */
  lemma IntervalKeepsValid(s: Settings, st: LogState, time: string)
    requires Valid(s, st)
    ensures Valid(s, AfterInterval(s, st, time))
  {
    if st.ticking && |s.commands| > 0 {
      AppendKeepsBound(st.displayed, Played(s, st.index, time), s.maxCommands);
    }
  }

  /** A key press keeps the invariant. */
  lemma KeyKeepsValid(s: Settings, st: LogState, key: string, time: string)
    requires Valid(s, st)
    ensures Valid(s, AfterKey(s, st, key, time))
  {
    AppendKeepsBound(st.displayed, UserEntry(s, st.input, time), s.maxCommands);
  }

  /** A restart keeps the invariant. */
  lemma RestartKeepsValid(s: Settings, st: LogState)
    requires Valid(s, st)
    ensures Valid(s, AfterRestart(s, st))
  {
  }

  /** Without autoplay, or without commands, no timer ever fires a command. */
  lemma NoAutoplayShowsNothing(s: Settings, st: LogState, time: string)
    requires Valid(s, st) && !Scheduled(s)
    ensures AfterTimeout(s, st, time) == st && AfterInterval(s, st, time) == st
  {
  }

  /** A key press only ever adds the typed input, and only on Enter with allowed, non-blank input. */
  lemma KeyAddsInputOnly(s: Settings, st: LogState, key: string, time: string)
    ensures var st' := AfterKey(s, st, key, time);
      (st' != st <==> key == "Enter" && !IsBlank(st.input) && s.allowInput)
      && (st' != st ==> st'.input == "" && st'.displayed == Append(st.displayed, UserEntry(s, st.input, time), s.maxCommands))
      && st'.index == st.index && st'.pending == st.pending && st'.ticking == st.ticking
  {
    var st' := AfterKey(s, st, key, time);
    if key == "Enter" && !IsBlank(st.input) && s.allowInput {
      assert st'.input != st.input by {
        assert st.input != "";
      }
    }
  }

  /** Interval ticks with the given clock readings, one after another. */
  function Run(s: Settings, st: LogState, times: seq<string>): LogState
    decreases |times|
  {
    if |times| == 0 then st else Run(s, AfterInterval(s, st, times[0]), times[1..])
  }

  /** The entries for commands `i`, `i + 1`, ... shown at the given clock readings. */
  function Plays(s: Settings, i: nat, times: seq<string>): (r: seq<Entry>)
    requires |s.commands| > 0
    ensures |r| == |times|
    ensures forall j :: 0 <= j < |times| ==> r[j] == Played(s, i + j, times[j])
    decreases |times|
  {
    if |times| == 0 then [] else [Played(s, i, times[0])] + Plays(s, i + 1, times[1..])
  }

  /** Keeping the last entries, appending, and keeping the last entries again keeps the last
   *  entries of the whole: a bound that is not negative forgets nothing the second cut needs. */
  lemma KeepLastAppend<T>(a: seq<T>, b: seq<T>, max: int)
    requires max >= 0
    ensures KeepLast(KeepLast(a, max) + b, max) == KeepLast(a + b, max)
  {
    if max > 0 && |a| > max {
      assert KeepLast(a, max) + b == (a + b)[|a| - max..];
    }
  }

  /** Ticks that keep playing (looping, or not past the last command) show commands `index`,
   *  `index + 1`, ... (cycling through the list), each appended with `slice(-maxCommands)`, and
   *  keep the interval running. The bound may be any that is not negative, the default 10 too. */
  lemma {:induction false} TicksPlay(s: Settings, st: LogState, times: seq<string>)
    requires s.maxCommands >= 0 && |s.commands| > 0 && st.ticking
    requires s.maxCommands >= 1 ==> |st.displayed| <= s.maxCommands
    requires s.loop || st.index + |times| <= |s.commands|
    ensures var r := Run(s, st, times);
      r.displayed == KeepLast(st.displayed + Plays(s, st.index, times), s.maxCommands)
      && r.index == st.index + |times| && r.ticking
    decreases |times|
  {
    if |times| == 0 {
      assert st.displayed + Plays(s, st.index, times) == st.displayed;
      assert KeepLast(st.displayed, s.maxCommands) == st.displayed;
    } else {
      var m := s.maxCommands;
      var p := Played(s, st.index, times[0]);
      var st' := AfterInterval(s, st, times[0]);
      assert st'.displayed == KeepLast(st.displayed + [p], m) && st'.index == st.index + 1 && st'.ticking;
      AppendKeepsBound(st.displayed, p, m);
      TicksPlay(s, st', times[1..]);
      var rest := Plays(s, st'.index, times[1..]);
      var all := Plays(s, st.index, times);
      PlaysCons(s, st.index, times);
      assert all == [p] + rest;
      TickThenCut(st.displayed, p, rest, m);
      assert Run(s, st, times) == Run(s, st', times[1..]);
      assert Run(s, st', times[1..]).displayed == KeepLast(KeepLast(st.displayed + [p], m) + rest, m);
    }
  }

  /** The first entry played, then the rest. */
  lemma PlaysCons(s: Settings, i: nat, times: seq<string>)
    requires |s.commands| > 0 && |times| > 0
    ensures Plays(s, i, times) == [Played(s, i, times[0])] + Plays(s, i + 1, times[1..])
  {
  }

  /** One tick's cut followed by the later ticks' cut is the cut of all the entries. */
  lemma TickThenCut<T>(d: seq<T>, p: T, rest: seq<T>, m: int)
    requires m >= 0
    ensures KeepLast(KeepLast(d + [p], m) + rest, m) == KeepLast(d + ([p] + rest), m)
  {
    KeepLastAppend(d + [p], rest, m);
    assert d + [p] + rest == d + ([p] + rest);
  }

  /** With looping, the ticks cycle through the commands forever, under any bound that is not
   *  negative. */
  lemma LoopCycles(s: Settings, st: LogState, times: seq<string>)
    requires s.loop && s.maxCommands >= 0 && |s.commands| > 0 && st.ticking
    requires s.maxCommands >= 1 ==> |st.displayed| <= s.maxCommands
    ensures var r := Run(s, st, times);
      r.displayed == KeepLast(st.displayed + Plays(s, st.index, times), s.maxCommands)
      && r.index == st.index + |times| && r.ticking
  {
    TicksPlay(s, st, times);
  }

  /** Ticks over two runs of clock readings are the ticks of the first run, then the second. */
  lemma {:induction false} RunAppend(s: Settings, st: LogState, a: seq<string>, b: seq<string>)
    ensures Run(s, st, a + b) == Run(s, Run(s, st, a), b)
    decreases |a|
  {
    if |a| > 0 {
      assert (a + b)[0] == a[0] && (a + b)[1..] == a[1..] + b;
      RunAppend(s, AfterInterval(s, st, a[0]), a[1..], b);
    } else {
      assert a + b == b;
    }
  }

  /** Without looping, under any bound that is not negative, the ticks show the remaining
   *  commands once, in order; the tick after the last one clears the interval, and later ticks
   *  change nothing. */
  lemma NoLoopStops(s: Settings, st: LogState, times: seq<string>)
    requires !s.loop && s.maxCommands >= 0 && |s.commands| > 0 && st.ticking && st.index <= |s.commands|
    requires s.maxCommands >= 1 ==> |st.displayed| <= s.maxCommands
    requires |times| > |s.commands| - st.index
    ensures var n := |s.commands| - st.index;
      var r := Run(s, st, times);
      r.displayed == KeepLast(st.displayed + Plays(s, st.index, times[..n]), s.maxCommands)
      && r.index == |s.commands| && !r.ticking
  {
    var n := |s.commands| - st.index;
    assert times == times[..n] + times[n..];
    RunAppend(s, st, times[..n], times[n..]);
    TicksPlay(s, st, times[..n]);
    var mid := Run(s, st, times[..n]);
    StoppedStays(s, AfterInterval(s, mid, times[n]), times[n + 1..]);
    assert times[n..][1..] == times[n + 1..];
  }

  /** Once the interval is cleared, ticks change nothing. */
  lemma {:induction false} StoppedStays(s: Settings, st: LogState, times: seq<string>)
    requires !st.ticking
    ensures Run(s, st, times) == st
    decreases |times|
  {
    if |times| > 0 {
      StoppedStays(s, st, times[1..]);
    }
  }

  /** The box as a component instance: the settings and the state React keeps for it. */
  class TerminalLogBox {
    const settings: Settings
    var displayed: seq<Entry>
    var commandIndex: nat
    var currentInput: string
    var timeoutPending: bool
    var intervalRunning: bool

    /** The state as a value. */
    function State(): LogState
      reads this
    {
      LogState(displayed, commandIndex, currentInput, timeoutPending, intervalRunning)
    }

    /** The first render and its effect. */
    constructor(content: LogContent)
      ensures settings == WithDefaults(content)
      ensures State() == Initial(settings)
      ensures Valid(settings, State())
    {
      settings := WithDefaults(content);
      displayed := [];
      commandIndex := 0;
      currentInput := "";
      timeoutPending := WithDefaults(content).autoPlay && |WithDefaults(content).commands| > 0;
      intervalRunning := false;
    }

    /** The one-second timeout fires. */
    method FireTimeout(time: string)
      requires Valid(settings, State())
      modifies this
      ensures State() == AfterTimeout(settings, old(State()), time)
      ensures Valid(settings, State())
    {
      TimeoutKeepsValid(settings, State(), time);
      if timeoutPending && |settings.commands| > 0 {
        var c := settings.commands[0 % |settings.commands|];
        var e := Entry(c.command, c.output, c.kind, if settings.showTimestamp then Some(time) else None);
        displayed := KeepLast(displayed + [e], settings.maxCommands);
        commandIndex := 1;
        timeoutPending := false;
        intervalRunning := true;
      }
    }

    /** The interval fires. */
    method FireInterval(time: string)
      requires Valid(settings, State())
      modifies this
      ensures State() == AfterInterval(settings, old(State()), time)
      ensures Valid(settings, State())
    {
      IntervalKeepsValid(settings, State(), time);
      if intervalRunning && |settings.commands| > 0 {
        var next := commandIndex;
        if !settings.loop && next >= |settings.commands| {
          intervalRunning := false;
        } else {
          var c := settings.commands[next % |settings.commands|];
          var e := Entry(c.command, c.output, c.kind, if settings.showTimestamp then Some(time) else None);
          displayed := KeepLast(displayed + [e], settings.maxCommands);
          commandIndex := next + 1;
        }
      }
    }

    /** The input line's `onChange`. */
    method Change(value: string)
      modifies this
      ensures State() == old(State()).(input := value)
    {
      currentInput := value;
    }

    /** The input line's `onKeyDown`. */
    method KeyDown(key: string, time: string)
      requires Valid(settings, State())
      modifies this
      ensures State() == AfterKey(settings, old(State()), key, time)
      ensures Valid(settings, State())
    {
      KeyKeepsValid(settings, State(), key, time);
      if key == "Enter" && !IsBlank(currentInput) && settings.allowInput {
        var e := Entry(currentInput, ["Command executed successfully", "Ready for next command..."],
                       Some("success"), if settings.showTimestamp then Some(time) else None);
        displayed := KeepLast(displayed + [e], settings.maxCommands);
        currentInput := "";
      }
    }

    /** The effect's cleanup followed by its re-run. */
    method Restart()
      requires Valid(settings, State())
      modifies this
      ensures State() == AfterRestart(settings, old(State()))
      ensures Valid(settings, State())
    {
      timeoutPending := settings.autoPlay && |settings.commands| > 0;
      intervalRunning := false;
    }
  }

  /** The colour families of an output line. */
  datatype Tone = Pass | Fail | Warn | Plain

  /** The marker a line carries, checked in order: pass, then fail, then warning. */
  function LineTone(line: string): (t: Option<Tone>)
    ensures t == Some(Pass) <==> Contains(line, "✓") || Contains(line, "PASSED")
    ensures t == Some(Fail) <==> !(Contains(line, "✓") || Contains(line, "PASSED")) && (Contains(line, "✗") || Contains(line, "FAILED"))
    ensures t == Some(Warn) <==>
      (!(Contains(line, "✓") || Contains(line, "PASSED")) && !(Contains(line, "✗") || Contains(line, "FAILED"))
       && (Contains(line, "⚠") || Contains(line, "WARNING")))
    ensures t != Some(Plain)
  {
    if Contains(line, "✓") || Contains(line, "PASSED") then Some(Pass)
    else if Contains(line, "✗") || Contains(line, "FAILED") then Some(Fail)
    else if Contains(line, "⚠") || Contains(line, "WARNING") then Some(Warn)
    else None
  }

  /** The tone the entry type gives: success and audit pass, error fails, warning warns. */
  function KindTone(kind: Option<string>): (t: Tone)
    ensures t == Pass <==> kind == Some("success") || kind == Some("audit")
    ensures t == Fail <==> kind == Some("error")
    ensures t == Warn <==> kind == Some("warning")
  {
    match kind
    case Some(k) =>
      if k == "success" || k == "audit" then Pass
      else if k == "error" then Fail
      else if k == "warning" then Warn
      else Plain
    case None => Plain
  }

  /** A non-empty line's marker wins over the entry type. */
  function OutputTone(kind: Option<string>, line: string): Tone {
    if line != "" && LineTone(line).Some? then LineTone(line).value else KindTone(kind)
  }

  /** The class of each tone; only the plain tone depends on the terminal theme. */
  function ToneClass(t: Tone, terminal: bool, dark: bool): string {
    match t
    case Pass => if dark then "text-green-400" else "text-green-600"
    case Fail => if dark then "text-red-400" else "text-red-600"
    case Warn => if dark then "text-yellow-400" else "text-yellow-600"
    case Plain =>
      if terminal then (if dark then "text-green-300" else "text-green-700")
      else (if dark then "text-gray-300" else "text-gray-700")
  }

  /** `getOutputColor(type, line)` */
  function OutputColor(kind: Option<string>, line: string, terminal: bool, dark: bool): string {
    ToneClass(OutputTone(kind, line), terminal, dark)
  }

  /** A pass marker colours the line green whatever the entry type, even an error. */
  lemma PassMarkerWins(kind: Option<string>, line: string, terminal: bool, dark: bool)
    requires Contains(line, "✓") || Contains(line, "PASSED")
    ensures OutputColor(kind, line, terminal, dark) == (if dark then "text-green-400" else "text-green-600")
  {
  }

  /** A fail marker wins over a warning marker and over the type. */
  lemma FailMarkerBeforeWarning(kind: Option<string>, line: string, terminal: bool, dark: bool)
    requires !Contains(line, "✓") && !Contains(line, "PASSED")
    requires Contains(line, "✗") || Contains(line, "FAILED")
    ensures OutputColor(kind, line, terminal, dark) == (if dark then "text-red-400" else "text-red-600")
  {
  }

  /** A warning marker, with no pass or fail marker, colours the line yellow whatever the entry
   *  type, even a success. */
  lemma WarningMarkerBeforeType(kind: Option<string>, line: string, terminal: bool, dark: bool)
    requires !Contains(line, "✓") && !Contains(line, "PASSED") && !Contains(line, "✗") && !Contains(line, "FAILED")
    requires Contains(line, "⚠") || Contains(line, "WARNING")
    ensures OutputColor(kind, line, terminal, dark) == (if dark then "text-yellow-400" else "text-yellow-600")
  {
  }

  /** An unmarked line takes the colour of its entry type. */
  lemma UnmarkedLineUsesType(kind: Option<string>, line: string, terminal: bool, dark: bool)
    requires !Contains(line, "✓") && !Contains(line, "PASSED") && !Contains(line, "✗") && !Contains(line, "FAILED")
    requires !Contains(line, "⚠") && !Contains(line, "WARNING")
    ensures OutputColor(kind, line, terminal, dark) == ToneClass(KindTone(kind), terminal, dark)
  {
  }

  /** Audit entries are coloured exactly like success entries. */
  lemma AuditLikeSuccess(line: string, terminal: bool, dark: bool)
    ensures OutputColor(Some("audit"), line, terminal, dark) == OutputColor(Some("success"), line, terminal, dark)
  {
  }

  /** The terminal theme changes only the colour of lines with no marker and no known type. */
  lemma ThemeOnlyChangesPlain(kind: Option<string>, line: string, dark: bool)
    ensures OutputColor(kind, line, true, dark) != OutputColor(kind, line, false, dark)
      <==> OutputTone(kind, line) == Plain
  {
  }
}
