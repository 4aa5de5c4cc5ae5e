/**
 The worker's redactor cache (internal/chatwork/redactor.go) over the file that short-lived
 credential helpers append fetched git tokens to (recordFetchedToken in
 internal/chatwork/credhelper.go): a step machine of one watcher and any number of writers.
 Every write to the file strictly raises its modification time, and reads of an existing file
 succeed unless a line is too long for the scanner.
 */
module Redactor {
  import opened Options
  import opened Runs
  import opened LineScanner

  /** bufio.MaxScanTokenSize. */
  const MAX_LINE := 65536

  // ---------------------------------------------------------------- reading the file

  function NonEmpty(lines: seq<string>): seq<string> {
    if lines == [] then [] else
    NonEmpty(lines[..|lines| - 1]) + if lines[|lines| - 1] == "" then [] else [lines[|lines| - 1]]
  }

  /** The lines that are not empty, in order, each once: by cutting the lines up anywhere, and line
      by line. */
  lemma {:induction false} NonEmptyMeaning(a: seq<string>, b: seq<string>, line: string)
    ensures NonEmpty(a + b) == NonEmpty(a) + NonEmpty(b)
    ensures NonEmpty([]) == [] && NonEmpty([line]) == if line == "" then [] else [line]
    decreases |b|
  {
    if b == [] {
      assert a + b == a;
    } else {
      var n := |b| - 1;
      assert (a + b)[..|a + b| - 1] == a + b[..n];
      NonEmptyMeaning(a, b[..n], line);
    }
    assert [line][..0] == [];
  }

  method ReadLines(content: string) returns (lines: seq<string>, failed: bool)
    ensures lines == NonEmpty(ScanLines(content, MAX_LINE).lines)
    ensures failed == ScanLines(content, MAX_LINE).tooLong
  {
    var scan := ScanLines(content, MAX_LINE);
    lines := [];
    for i := 0 to |scan.lines|
      invariant lines == NonEmpty(scan.lines[..i])
    {
      assert scan.lines[..i + 1][..i] == scan.lines[..i];
      if scan.lines[i] != "" { lines := lines + [scan.lines[i]]; }
    }
    assert scan.lines[..|scan.lines|] == scan.lines;
    failed := scan.tooLong;
  }

  function SetOf(xs: seq<string>): set<string> {
    set x | x in xs
  }

  /** What reload adds to the session's own keys: nothing when the file cannot be read through. */
  function Fetched(content: string): set<string> {
    var scan := ScanLines(content, MAX_LINE);
    if scan.tooLong then {} else SetOf(NonEmpty(scan.lines))
  }

  /** The watcher's own state. The file answers one stat and one read per reload; `None` is an
      error, a missing file included. Reading is method-atomic here; the machine below lets writers
      in between the two. */
  class RedactorWatcher {
    const base: set<string>
    var masked: set<string>
    var fetchedLastMod: nat

    constructor (base: set<string>, stat: Option<nat>, text: Option<string>)
      ensures this.base == base
      ensures masked == base + (if text.Some? then Fetched(text.value) else {})
      ensures fetchedLastMod == if stat.Some? then stat.value else 0
    {
      this.base := base;
      masked, fetchedLastMod := {}, 0;
      new;
      Reload(stat, text);
    }

    method Reload(stat: Option<nat>, text: Option<string>)
      modifies this
      ensures masked == base + (if text.Some? then Fetched(text.value) else {})
      ensures fetchedLastMod == if stat.Some? then stat.value else 0
    {
      var all := base;
      var preReadMod := 0;
      if stat.Some? { preReadMod := stat.value; }
      if text.Some? {
        var tokens, failed := ReadLines(text.value);
        if !failed { all := all + SetOf(tokens); }
      }
      masked := all;
      fetchedLastMod := preReadMod;
    }

    /** One tick of watch: the stat of changed, and a reload when the time has moved. */
    method Tick(tickStat: Option<nat>, stat: Option<nat>, text: Option<string>)
      modifies this
      ensures if tickStat.None? || tickStat.value == old(fetchedLastMod)
              then masked == old(masked) && fetchedLastMod == old(fetchedLastMod)
              else masked == base + (if text.Some? then Fetched(text.value) else {})
                   && fetchedLastMod == if stat.Some? then stat.value else 0
    {
      if tickStat.None? { return; }
      if tickStat.value != fetchedLastMod { Reload(stat, text); }
    }
  }

  // ---------------------------------------------------------------- state

  datatype File = File(content: string, mtime: nat)

  datatype Pc = Waiting | Stat | Read | Store | Stamp

  /** `preMod` and `lines` are reload's locals; `ready` once the constructor's reload is through.
      `tokens`, `readUpTo` and `builtUpTo`: all tokens recorded, and how many of them the last read
      and the current redactor had in front of them. */
  datatype State = State(
    file: Option<File>, base: set<string>,
    pc: Pc, lastMod: nat, preMod: nat, lines: set<string>, built: set<string>, ready: bool,
    tokens: seq<string>, readUpTo: nat, builtUpTo: nat)

  /** The modification time, 0 standing for the zero time a missing file leaves. */
  function Mtime(s: State): nat {
    if s.file.Some? then s.file.value.mtime else 0
  }

  function Content(s: State): string {
    if s.file.Some? then s.file.value.content else ""
  }

  function Init(base: set<string>): State {
    State(None, base, Stat, 0, 0, {}, {}, false, [], 0, 0)
  }

  datatype Action =
    | CreateFile(mtime: nat)                   // the O_CREATE open
    | AppendToken(token: string, mtime: nat)   // the write
    | Tick | Reload

  predicate Enabled(s: State, a: Action) {
    match a
    case CreateFile(mtime) => s.file.None? && mtime > 0
    case AppendToken(token, mtime) => s.file.Some? && token != "" && mtime > s.file.value.mtime
    case Tick => s.pc == Waiting
    case Reload => s.pc != Waiting
  }

  /** changed(): a failing stat is no change. */
  predicate Changed(s: State) {
    s.file.Some? && s.file.value.mtime != s.lastMod
  }

  function ReloadStep(s: State): State {
    match s.pc
    case Waiting => s
    case Stat => s.(pc := Read, preMod := Mtime(s))
    case Read => s.(pc := Store, lines := Fetched(Content(s)), readUpTo := |s.tokens|)
    case Store => s.(pc := Stamp, built := s.base + s.lines, builtUpTo := s.readUpTo)
    case Stamp => s.(pc := Waiting, lastMod := s.preMod, ready := true)
  }

  function Apply(s: State, a: Action): State
    requires Enabled(s, a)
  {
    match a
    case CreateFile(mtime) => s.(file := Some(File("", mtime)))
    case AppendToken(token, mtime) =>
      s.(file := Some(File(s.file.value.content + token + "\n", mtime)), tokens := s.tokens + [token])
    case Tick => if Changed(s) then s.(pc := Stat) else s
    case Reload => ReloadStep(s)
  }

  function Next(s: State, a: Action): Option<State> {
    if Enabled(s, a) then Some(Apply(s, a)) else None
  }

  ghost function ExecFrom(s: State, acts: seq<Action>): Option<State> {
    After(Next, s, acts)
  }

  ghost predicate Reaches(base: set<string>, acts: seq<Action>, s: State) {
    ExecFrom(Init(base), acts) == Some(s)
  }

  // ---------------------------------------------------------------- coherence

  predicate Reloading(pc: Pc) {
    pc == Read || pc == Store || pc == Stamp
  }

  ghost predicate Coherent(s: State) {
    && (s.file.Some? ==> s.file.value.mtime > 0)
    && s.lastMod <= Mtime(s)
    && (Reloading(s.pc) ==> s.lastMod <= s.preMod <= Mtime(s))
    && (s.pc == Store && s.preMod == Mtime(s) ==> s.lines == Fetched(Content(s)))
    && (s.pc == Stamp && s.preMod == Mtime(s) ==> s.built == s.base + Fetched(Content(s)))
    && (s.ready && s.lastMod == Mtime(s) ==> s.built == s.base + Fetched(Content(s)))
    && (s.pc == Waiting ==> s.ready)
  }

  lemma ReloadKeepsCoherent(s: State)
    requires Coherent(s)
    ensures Coherent(ReloadStep(s))
  {
    if s.pc == Stat || s.pc == Read { LookingKeepsCoherent(s); }
    else if s.pc != Waiting { BuildingKeepsCoherent(s); }
  }

  lemma LookingKeepsCoherent(s: State)
    requires Coherent(s) && (s.pc == Stat || s.pc == Read)
    ensures Coherent(ReloadStep(s))
  {
  }

  lemma BuildingKeepsCoherent(s: State)
    requires Coherent(s) && (s.pc == Store || s.pc == Stamp)
    ensures Coherent(ReloadStep(s))
  {
  }

  /** A later time on the file than on any stamp: nothing is claimed of what is masked. */
  lemma NewerFileIsCoherent(s: State, file: File)
    requires Coherent(s) && file.mtime > Mtime(s)
    ensures Coherent(s.(file := Some(file)))
  {
  }

  lemma StepKeepsCoherent(s: State, a: Action)
    requires Coherent(s) && Enabled(s, a)
    ensures Coherent(Apply(s, a))
  {
    match a
    case CreateFile(mtime) => NewerFileIsCoherent(s, File("", mtime));
    case AppendToken(token, mtime) =>
      NewerFileIsCoherent(s, File(s.file.value.content + token + "\n", mtime));
    case Tick =>
    case Reload => ReloadKeepsCoherent(s);
  }

  lemma {:induction false} CoherentFrom(s: State, acts: seq<Action>, s': State)
    requires Coherent(s) && ExecFrom(s, acts) == Some(s')
    ensures Coherent(s') && s'.base == s.base
    decreases |acts|
  {
    if acts != [] {
      StepKeepsCoherent(s, acts[0]);
      CoherentFrom(Apply(s, acts[0]), acts[1..], s');
    }
  }

  /** Stat, read and stamp may interleave with writers in any way: once the watcher is built, a stamp
      that equals the file's time means the redactor masks what the file says now. */
  lemma MatchingStampMeansCurrent(base: set<string>, acts: seq<Action>, s: State)
    requires Reaches(base, acts, s) && s.ready && s.lastMod == Mtime(s)
    ensures s.built == base + Fetched(Content(s))
  {
    CoherentFrom(Init(base), acts, s);
  }

  /** One tick with nobody writing catches up with whatever was written before it. */
  lemma OneQuietTickCatchesUp(base: set<string>, acts: seq<Action>, s: State) returns (tick: seq<Action>, s': State)
    requires Reaches(base, acts, s) && s.pc == Waiting
    ensures ExecFrom(s, tick) == Some(s') && s'.pc == Waiting && s'.file == s.file
    ensures tick == [Tick] || tick == [Tick, Reload, Reload, Reload, Reload]
    ensures s'.built == base + Fetched(Content(s))
  {
    CoherentFrom(Init(base), acts, s);
    if Changed(s) {
      var s1 := Apply(s, Tick);
      s' := ReloadStep(ReloadStep(ReloadStep(ReloadStep(s1))));
      tick := [Tick, Reload, Reload, Reload, Reload];
      assert ExecFrom(s1, [Reload, Reload, Reload, Reload]) == Some(s');
    } else {
      tick, s' := [Tick], s;
      assert ExecFrom(Apply(s, Tick), tick[1..]) == Some(s);
    }
  }

  // ---------------------------------------------------------------- the masked set

  ghost predicate GoodToken(t: string) {
    t != "" && '\n' !in t && t[|t| - 1] != '\r'
  }

  ghost predicate GoodTokens(ts: seq<string>) {
    forall i :: 0 <= i < |ts| ==> GoodToken(ts[i])
  }

  lemma {:induction false} NonEmptyKeepsAll(ts: seq<string>)
    requires forall i :: 0 <= i < |ts| ==> ts[i] != ""
    ensures NonEmpty(ts) == ts
  {
    if ts != [] {
      NonEmptyKeepsAll(ts[..|ts| - 1]);
      assert ts == ts[..|ts| - 1] + [ts[|ts| - 1]];
    }
  }

  /** The recorded tokens are masked exactly when every one of them fits a scanner line: a single
      over-long token makes the whole read fail and unmasks all the others. */
  lemma AllMaskedExactlyWhenTokensFit(ts: seq<string>)
    requires GoodTokens(ts)
    ensures Fetched(Unlines(ts)) == SetOf(ts) <==> Fits(ts, MAX_LINE)
  {
    forall i | 0 <= i < |ts| ensures '\n' !in ts[i] && DropCR(ts[i]) == ts[i] { assert GoodToken(ts[i]); }
    ScanUnlines(ts, MAX_LINE);
    assert DropCRs(ts) == ts;
    forall i | 0 <= i < |ts| ensures ts[i] != "" { assert GoodToken(ts[i]); }
    NonEmptyKeepsAll(ts);
    if !Fits(ts, MAX_LINE) {
      var i :| 0 <= i < |ts| && |ts[i]| >= MAX_LINE;
      assert ts[i] in SetOf(ts);
    }
  }

  ghost predicate SafeTokens(ts: seq<string>) {
    GoodTokens(ts) && Fits(ts, MAX_LINE)
  }

  /** Two readings of the growing file, the earlier one of its first tokens: the later one masks all
      the earlier one did exactly when it could be read through, or the earlier one already could
      not, or had nothing. */
  lemma FetchedGrowsExactlyWhenReadable(a: seq<string>, b: seq<string>)
    requires a <= b && GoodTokens(b)
    ensures Fetched(Unlines(a)) <= Fetched(Unlines(b)) <==> Fits(b, MAX_LINE) || !Fits(a, MAX_LINE) || a == []
  {
    FetchedIs(a);
    FetchedIs(b);
    SetOfPrefix(b, |a|, |b|);
    assert b[..|a|] == a && b[..|b|] == b;
    if a != [] { assert a[0] in SetOf(a); }
  }

  /** All or nothing. */
  lemma FetchedIs(ts: seq<string>)
    requires GoodTokens(ts)
    ensures Fetched(Unlines(ts)) == if Fits(ts, MAX_LINE) then SetOf(ts) else {}
  {
    AllMaskedExactlyWhenTokensFit(ts);
    TooLongIsNothing(ts);
  }

  lemma TooLongIsNothing(ts: seq<string>)
    requires GoodTokens(ts)
    ensures !Fits(ts, MAX_LINE) ==> Fetched(Unlines(ts)) == {}
  {
    forall i | 0 <= i < |ts| ensures '\n' !in ts[i] { assert GoodToken(ts[i]); }
    ScanUnlines(ts, MAX_LINE);
  }

  /** Each redactor was built from a reading of the file when it held some first part of the tokens
      it holds now, or is the empty one of a watcher not built yet. */
  ghost predicate Growing(s: State) {
    && Content(s) == Unlines(s.tokens)
    && s.builtUpTo <= s.readUpTo <= |s.tokens| && (s.pc == Waiting ==> s.ready)
    && (s.pc == Store ==> s.lines == Fetched(Unlines(s.tokens[..s.readUpTo])))
    && (if Unbuilt(s) then s.built == {} && s.builtUpTo == 0
        else s.built == s.base + Fetched(Unlines(s.tokens[..s.builtUpTo])))
  }

  predicate Unbuilt(s: State) {
    !s.ready && s.pc != Stamp && s.pc != Waiting
  }

  lemma SetOfPrefix(ts: seq<string>, m: nat, n: nat)
    requires m <= n <= |ts|
    ensures SetOf(ts[..m]) <= SetOf(ts[..n])
  {
    forall x | x in ts[..m] ensures x in ts[..n] {
      var i :| 0 <= i < m && ts[..m][i] == x;
      assert ts[..n][i] == x;
    }
  }

  lemma AppendKeepsGrowing(s: State, token: string, mtime: nat)
    requires Growing(s) && Enabled(s, AppendToken(token, mtime))
    ensures Growing(Apply(s, AppendToken(token, mtime)))
  {
    var s' := Apply(s, AppendToken(token, mtime));
    UnlinesAppend(s.tokens, token);
    assert s'.tokens[..s.readUpTo] == s.tokens[..s.readUpTo];
    assert s'.tokens[..s.builtUpTo] == s.tokens[..s.builtUpTo];
  }

  lemma ReadKeepsGrowing(s: State)
    requires Growing(s) && s.pc == Read
    ensures Growing(ReloadStep(s))
  {
    assert s.tokens[..|s.tokens|] == s.tokens;
  }

  lemma ReloadKeepsGrowing(s: State)
    requires Growing(s) && s.pc != Read
    ensures Growing(ReloadStep(s))
  {
  }

  lemma StepKeepsGrowing(s: State, a: Action)
    requires Growing(s) && Enabled(s, a)
    ensures Growing(Apply(s, a))
  {
    match a
    case CreateFile(_) =>
    case AppendToken(token, mtime) => AppendKeepsGrowing(s, token, mtime);
    case Tick =>
    case Reload => if s.pc == Read { ReadKeepsGrowing(s); } else { ReloadKeepsGrowing(s); }
  }

  lemma StepOnlyGrows(s: State, a: Action)
    requires s.builtUpTo <= s.readUpTo <= |s.tokens| && (s.pc == Waiting ==> s.ready) && Enabled(s, a)
    ensures var s' := Apply(s, a);
            && s.tokens <= s'.tokens && s.builtUpTo <= s'.builtUpTo
            && s'.base == s.base && (Unbuilt(s') ==> Unbuilt(s))
  {
  }

  lemma {:induction false} GrowingFrom(s: State, acts: seq<Action>, s': State)
    requires Growing(s) && ExecFrom(s, acts) == Some(s')
    ensures Growing(s') && s.tokens <= s'.tokens && s.builtUpTo <= s'.builtUpTo
    ensures s'.base == s.base && (Unbuilt(s') ==> Unbuilt(s))
    decreases |acts|
  {
    if acts != [] {
      StepKeepsGrowing(s, acts[0]);
      StepOnlyGrows(s, acts[0]);
      GrowingFrom(Apply(s, acts[0]), acts[1..], s');
    }
  }

  /** The tokens the current redactor was built from. */
  function BuiltFrom(s: State): seq<string>
    requires s.builtUpTo <= |s.tokens|
  {
    s.tokens[..s.builtUpTo]
  }

  /** In every interleaving, between any two points of a run: all that was masked at the first is
      masked at the second exactly when the second's redactor was built from tokens that all fit a
      line, or the first's already was not, or masked nothing beyond the session's own keys. */
  lemma MaskedSetGrowsExactlyWhenReadable(
      base: set<string>, acts: seq<Action>, s: State, more: seq<Action>, s': State)
    requires Reaches(base, acts, s) && ExecFrom(s, more) == Some(s') && GoodTokens(s'.tokens)
    ensures s.builtUpTo <= |s.tokens| && s'.builtUpTo <= |s'.tokens|
    ensures s.built <= s'.built <==>
              || Fits(BuiltFrom(s'), MAX_LINE)
              || !Fits(BuiltFrom(s), MAX_LINE)
              || SetOf(BuiltFrom(s)) <= base
  {
    GrowingFrom(Init(base), acts, s);
    GrowingFrom(s, more, s');
    var a, b := BuiltFrom(s), BuiltFrom(s');
    assert a <= b;
    assert GoodTokens(a) && GoodTokens(b);
    FetchedIs(a);
    FetchedIs(b);
    SetOfPrefix(b, |a|, |b|);
    assert b[..|a|] == a && b[..|b|] == b;
  }

  /** With tokens that are newline-free, do not end in a carriage return and fit a line, whatever is
      masked at one point of a run is masked at every later point, in every interleaving. */
  lemma MaskedSetNeverShrinks(base: set<string>, acts: seq<Action>, s: State, more: seq<Action>, s': State)
    requires Reaches(base, acts, s) && ExecFrom(s, more) == Some(s') && SafeTokens(s'.tokens)
    ensures s.built <= s'.built
  {
    MaskedSetGrowsExactlyWhenReadable(base, acts, s, more, s');
    assert forall i :: 0 <= i < s'.builtUpTo ==> BuiltFrom(s')[i] == s'.tokens[i];
  }

  // ---------------------------------------------------------------- a mask lost, in a run

  /** A token that fills a scanner line. */
  function Overlong(): string {
    seq(MAX_LINE, i => 'x')
  }

  const FOUR_STEPS: seq<Action> := [Reload, Reload, Reload, Reload]

  lemma TwoReloads(s: State)
    requires s.pc != Waiting && s.pc != Stamp
    ensures ExecFrom(s, [Reload, Reload]) == Some(ReloadStep(ReloadStep(s)))
  {
    One(Next, s, Reload);
    One(Next, ReloadStep(s), Reload);
    Then(Next, s, [Reload], ReloadStep(s), [Reload]);
    assert [Reload, Reload] == [Reload] + [Reload];
  }

  /** A whole reload. */
  lemma Reloads(s: State) returns (s': State)
    requires s.pc == Stat
    ensures ExecFrom(s, FOUR_STEPS) == Some(s')
    ensures s'.pc == Waiting && s'.file == s.file && s'.tokens == s.tokens && s'.base == s.base
    ensures s'.built == s.base + Fetched(Content(s)) && s'.lastMod == Mtime(s)
  {
    var mid := ReloadStep(ReloadStep(s));
    TwoReloads(s);
    TwoReloads(mid);
    Then(Next, s, [Reload, Reload], mid, [Reload, Reload]);
    assert FOUR_STEPS == [Reload, Reload] + [Reload, Reload];
    s' := ReloadStep(ReloadStep(mid));
  }

  lemma WritesFirst(s: State, t: string) returns (s': State)
    requires s.file == None && s.tokens == [] && t != ""
    ensures Enabled(s, CreateFile(1)) && Enabled(Apply(s, CreateFile(1)), AppendToken(t, 2))
    ensures s' == Apply(Apply(s, CreateFile(1)), AppendToken(t, 2))
    ensures s' == s.(file := Some(File(Unlines([t]), 2)), tokens := [t])
  {
    UnlinesAppend([], t);
    assert [] + [t] == [t] && "" + t == t;
    s' := Apply(Apply(s, CreateFile(1)), AppendToken(t, 2));
  }

  lemma OneTokenIsFetched(t: string)
    requires GoodToken(t) && |t| < MAX_LINE
    ensures Fetched(Unlines([t])) == {t}
  {
    FetchedIs([t]);
    assert SetOf([t]) == {t};
  }

  lemma MasksFirst(s: State, t: string) returns (acts: seq<Action>, s': State)
    requires s.pc == Stat && s.file == None && s.base == {} && s.tokens == []
    requires GoodToken(t) && |t| < MAX_LINE
    ensures ExecFrom(s, acts) == Some(s') && s'.pc == Waiting && s'.base == {} && s'.built == {t}
    ensures s'.tokens == [t] && s'.file == Some(File(Unlines([t]), 2)) && s'.lastMod == 2
  {
    var s1 := WritesFirst(s, t);
    OneTokenIsFetched(t);
    s' := Reloads(s1);
    acts := [CreateFile(1), AppendToken(t, 2)] + FOUR_STEPS;
    AfterTwo(s, CreateFile(1), AppendToken(t, 2), FOUR_STEPS, s');
  }

  lemma UnmasksAll(s: State, t: string, long: string) returns (more: seq<Action>, s': State)
    requires s.pc == Waiting && s.base == {} && s.tokens == [t] && GoodToken(t)
    requires s.file == Some(File(Unlines([t]), 2)) && s.lastMod == 2
    requires GoodToken(long) && |long| >= MAX_LINE
    ensures ExecFrom(s, more) == Some(s') && s'.pc == Waiting && s'.built == {}
    ensures s'.tokens == [t] + [long]
  {
    var ts := [t] + [long];
    UnlinesAppend([t], long);
    assert GoodTokens(ts) && ts[1] == long;
    TooLongIsNothing(ts);
    s' := Reloads(Apply(Apply(s, AppendToken(long, 3)), Tick));
    more := [AppendToken(long, 3), Tick] + FOUR_STEPS;
    AfterTwo(s, AppendToken(long, 3), Tick, FOUR_STEPS, s');
  }

  /** Any recorded, masked token is unmasked again by the next tick after any over-long one arrives. */
  lemma LongTokenUnmasksAnother(t: string, long: string)
    returns (acts: seq<Action>, s: State, more: seq<Action>, s': State)
    requires GoodToken(t) && |t| < MAX_LINE && GoodToken(long) && |long| >= MAX_LINE
    ensures Reaches({}, acts, s) && ExecFrom(s, more) == Some(s') && s'.tokens == [t] + [long]
    ensures s.pc == Waiting && s.built == {t} && s'.pc == Waiting && s'.built == {}
  {
    acts, s := MasksFirst(Init({}), t);
    more, s' := UnmasksAll(s, t, long);
  }

  lemma OverlongIsGood()
    ensures GoodToken(Overlong()) && |Overlong()| == MAX_LINE
  {
    assert Overlong()[|Overlong()| - 1] == 'x' && '\n' !in Overlong();
  }

  /** Such a run. */
  lemma OverlongTokenUnmasks()
    returns (acts: seq<Action>, s: State, more: seq<Action>, s': State)
    ensures Reaches({}, acts, s) && ExecFrom(s, more) == Some(s')
    ensures s.pc == Waiting && s.built == {"tok"} && s'.pc == Waiting && s'.built == {}
  {
    OverlongIsGood();
    acts, s, more, s' := LongTokenUnmasksAnother("tok", Overlong());
  }

  lemma AfterTwo(s: State, a: Action, b: Action, rest: seq<Action>, s': State)
    requires Enabled(s, a) && Enabled(Apply(s, a), b)
    requires ExecFrom(Apply(Apply(s, a), b), rest) == Some(s')
    ensures ExecFrom(s, [a, b] + rest) == Some(s')
  {
    One(Next, s, a);
    One(Next, Apply(s, a), b);
    Then(Next, s, [a], Apply(s, a), [b] + rest);
    Then(Next, Apply(s, a), [b], Apply(Apply(s, a), b), rest);
    assert [a, b] + rest == [a] + ([b] + rest);
  }
}
