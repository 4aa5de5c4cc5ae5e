/**
 The converse of isolation: for every point that is left uncovered, a run in which a start standing
 there still takes what another start of its session has got running on; and what a start of the
 ID that names the base takes.
 */
module LifecycleOverlap {
  import opened SessionIds
  import opened Lifecycle
  import opened LifecycleTheorems
  import LifecycleOwnership
  import Tracking
  import Host
  import HostSteps

  function Req(sid: Sid, resume: bool): Request {
    Request(sid, true, true, resume, {})
  }

  /** Session "s" with its container up and its handler answered. */
  const RUNNING := LifeRec(Req("s", false), Returned, 202, Running, Waiting, Copying, false)

  const ALL_WELL := Host.World(true, true, true, true, true, true, true)
  const NO_PULL := Host.World(true, true, true, false, true, true, true)

  lemma Ids()
    ensures SafeId("s") && SafeId(BASE) && OwnDir("s") && !OwnDir(BASE)
  {
  }

  // ---------------------------------------------------------------- runs

  /** A row of one handler's steps continues a run. */
  lemma {:induction false} RowIsARun(c: Config, acts: seq<Action>, h: Life, row: seq<State>, k: nat)
    returns (acts': seq<Action>)
    requires HostSteps.HandlerOnly(h, row) && k < |row| && Reaches(c, acts, row[0])
    ensures Reaches(c, acts', row[k])
  {
    if k == 0 { return acts; }
    acts' := RowIsARun(c, acts, h, row, k - 1);
    assert HostSteps.IsHandlerStep(row[k - 1], h, row[k - 1 + 1]);
    var ok :| Enabled(row[k - 1], Handler(h, ok)) && row[k] == HandlerStep(row[k - 1], h, ok);
    Extend(c, acts', row[k - 1], Handler(h, ok));
    acts' := acts' + [Handler(h, ok)];
  }

  lemma BeginStart(c: Config, acts: seq<Action>, s: State, h: Life, req: Request)
    returns (acts': seq<Action>, s': State)
    requires Reaches(c, acts, s) && h !in s.lives && s.shut.pc == Serving && Admitted(s.ids, req.sid)
    ensures Reaches(c, acts', s') && s' == s.(lives := s.lives[h := Host.Requested(req)])
  {
    Extend(c, acts, s, Begin(h, req));
    acts', s' := acts + [Begin(h, req)], Apply(s, Begin(h, req));
  }

  // ---------------------------------------------------------------- reaching a point

  /** The step that leads to a point, and the foreign answer it needs. */
  function Before(p: StartPc): (StartPc, bool) {
    match p
    case ConflictCheck => (CapacityCheck, true)
    case Mkdir => (ConflictCheck, true)
    case WriteResume => (Mkdir, true)
    case RegisterLlm => (Mkdir, true)
    case AddKeys(done) => if done == 0 then (RegisterLlm, true) else (AddKeys(done - 1), true)
    case Pull => (AddKeys(4), true)
    case Create => (Pull, true)
    case Attach => (Create, true)
    case Admission => (Attach, true)
    case DropContainer => (Attach, false)
    case ForgetKeys => (Pull, false)
    case RevokeLlm => (ForgetKeys, true)
    case RemoveDir => (RevokeLlm, true)
    case _ => (CapacityCheck, true)
  }

  function Depth(p: StartPc): nat {
    match p
    case CapacityCheck => 0
    case ConflictCheck => 1
    case Mkdir => 2
    case WriteResume => 3
    case RegisterLlm => 3
    case AddKeys(done) => 4 + done
    case Pull => 9
    case Create => 10
    case Attach => 11
    case Admission => 12
    case DropContainer => 12
    case ForgetKeys => 10
    case RevokeLlm => 11
    case RemoveDir => 12
    case _ => 0
  }

  /** How things stand around a life. */
  datatype View = View(
    lives: set<Life>, req: Request, pc: StartPc, sup: SupPc,
    tracker: Tracking.Registry, reasonLife: map<Sid, Life>,
    shut: ShutPc, swept: set<Sid>, log: seq<LogLine>, config: Config)

  ghost function ViewOf(s: State, h: Life): View
    requires h in s.lives
  {
    View(s.lives.Keys, s.lives[h].req, s.lives[h].pc, s.lives[h].sup, s.sh.tracker, s.sh.reasonLife,
         s.shut.pc, s.shut.swept, s.log, ConfigOf(s))
  }

  /** Life 0 stands at `p` of a start of `sid`, alone. */
  ghost predicate StandsAlone(s: State, c: Config, sid: Sid, resume: bool, p: StartPc) {
    0 in s.lives
    && ViewOf(s, 0) == View({0}, Req(sid, resume), p, Unspawned,
                            Tracking.Registry(map[], map[]), map[], Serving, {}, [], c)
  }

  /** The request that gets to `p`, or past it to a transcript to be written. */
  predicate Fits(p: StartPc, resume: bool) {
    (p.WriteResume? ==> resume) && (resume ==> p in {CapacityCheck, ConflictCheck, Mkdir, WriteResume})
  }

  lemma NextIs(l: LifeRec, seen: Seen, sid: Sid, resume: bool, p: StartPc)
    requires p in Needed(OfDir) + {ConflictCheck} && Fits(p, resume)
    requires l.pc == Before(p).0 && l.req == Req(sid, resume) && !seen.full && !seen.tracked
    ensures var next := HandlerNext(l, seen, Before(p).1);
            && next.0.pc == p && next.0.req == l.req && next.0.sup == l.sup
            && !next.1.AdmitRun? && !next.1.DropRun?
  {
  }

  lemma BeforeFits(p: StartPc, resume: bool)
    requires p in Needed(OfDir) + {ConflictCheck} && Fits(p, resume)
    ensures Fits(Before(p).0, resume) && Depth(Before(p).0) < Depth(p)
    ensures Before(p).0 in Needed(OfDir) + {CapacityCheck, ConflictCheck}
  {
  }

  /** A handler's step that is neither admission nor removal. */
  lemma HandlerLeaves(s: State, h: Life, ok: bool)
    requires h in s.lives
    requires var e := HandlerNext(s.lives[h], Look(s, h, s.lives[h].req.sid), ok).1; !e.AdmitRun? && !e.DropRun?
    ensures var s' := HandlerStep(s, h, ok);
            var next := HandlerNext(s.lives[h], Look(s, h, s.lives[h].req.sid), ok);
            && s'.lives == s.lives[h := next.0] && s'.sh == Perform(s.sh, s.max, h, next.0.req.sid, next.1)
            && s'.sh.tracker == s.sh.tracker && s'.sh.reasonLife == s.sh.reasonLife
            && s'.shut == s.shut && s'.log == s.log && ConfigOf(s') == ConfigOf(s)
  {
    var next := HandlerNext(s.lives[h], Look(s, h, s.lives[h].req.sid), ok);
    LifecycleOwnership.OtherEffectsKeepTheTracker(s.sh, s.max, h, next.0.req.sid, next.1);
  }

  lemma MayStep(s: State, c: Config, sid: Sid, resume: bool, p: StartPc, ok: bool)
    requires StandsAlone(s, c, sid, resume, p) && p != Returned
    ensures Enabled(s, Handler(0, ok))
  {
    assert 0 in s.lives.Keys && forall g :: g in s.lives ==> g in s.lives.Keys;
  }

  lemma StepView(s: State, ok: bool, p: StartPc)
    requires 0 in s.lives
    requires var next := HandlerNext(s.lives[0], Look(s, 0, s.lives[0].req.sid), ok);
             && next.0.pc == p && next.0.req == s.lives[0].req && next.0.sup == s.lives[0].sup
             && !next.1.AdmitRun? && !next.1.DropRun?
    ensures 0 in HandlerStep(s, 0, ok).lives
    ensures s.lives.Keys == {0} ==> ViewOf(HandlerStep(s, 0, ok), 0) == ViewOf(s, 0).(pc := p)
  {
    HandlerLeaves(s, 0, ok);
  }

  lemma StepsTo(c: Config, sid: Sid, resume: bool, p: StartPc, s: State)
    requires c.max > 0 && p in Needed(OfDir) + {ConflictCheck} && Fits(p, resume)
    requires StandsAlone(s, c, sid, resume, Before(p).0)
    ensures Enabled(s, Handler(0, Before(p).1))
    ensures StandsAlone(HandlerStep(s, 0, Before(p).1), c, sid, resume, p)
  {
    MayStep(s, c, sid, resume, Before(p).0, Before(p).1);
    NextIs(s.lives[0], Look(s, 0, sid), sid, resume, p);
    StepView(s, Before(p).1, p);
  }

  /** Every point past the conflict check but those that own the tracker entry is reached. */
  lemma {:induction false} Reach(c: Config, sid: Sid, resume: bool, p: StartPc)
    returns (acts: seq<Action>, s: State)
    requires c.max > 0 && Admitted(c.ids, sid)
    requires p in Needed(OfDir) + {CapacityCheck, ConflictCheck} && Fits(p, resume)
    ensures Reaches(c, acts, s) && StandsAlone(s, c, sid, resume, p)
    decreases Depth(p)
  {
    if p == CapacityCheck {
      acts, s := BeginStart(c, [], Init(c), 0, Req(sid, resume));
      assert s.lives.Keys == {0};
    } else {
      BeforeFits(p, resume);
      acts, s := Reach(c, sid, resume, Before(p).0);
      StepsTo(c, sid, resume, p, s);
      Extend(c, acts, s, Handler(0, Before(p).1));
      acts, s := acts + [Handler(0, Before(p).1)], HandlerStep(s, 0, Before(p).1);
    }
  }

  // ---------------------------------------------------------------- failing from there

  function Rank(p: StartPc): nat {
    match p
    case Mkdir => 20
    case WriteResume => 19
    case RegisterLlm => 18
    case AddKeys(done) => if done < 5 then 17 - done else 12
    case Pull => 11
    case Create => 10
    case Attach => 9
    case Admission => 8
    case DropContainer => 7
    case ForgetKeys => 6
    case RevokeLlm => 5
    case RemoveDir => 4
    case _ => 0
  }

  /** Failing as late as keeps the whole cleanup in: everything succeeds up to the image pull. */
  predicate Answer(p: StartPc) {
    p.Mkdir? || p.WriteResume? || p.RegisterLlm?
  }

  /** The session has nothing of this kind; in the case of the base, nobody has a run dir. */
  predicate Gone(k: Kind, sh: Shared, sid: Sid) {
    match k
    case OfKeys => KeysOf(sh, sid) == {}
    case OfToken => sid !in sh.tokens
    case OfDir => sid !in sh.dirs && (OwnDir(sid) || sh.dirs == map[])
  }

  /** At this point, with what it sees, the start is going to fail. */
  ghost predicate Doomed(s: State, h: Life, sid: Sid) {
    && h in s.lives && s.lives[h].req.sid == sid && s.lives[h].pc in Needed(OfDir)
    && (s.lives[h].pc.WriteResume? ==> sid in s.sh.dirs)
    && (s.lives[h].pc.Admission? ==> sid in s.sh.tracker.byKey)
  }

  lemma DoomedNext(l: LifeRec, seen: Seen)
    requires l.pc in Needed(OfDir)
    requires (l.pc.WriteResume? ==> seen.hasDir) && (l.pc.Admission? ==> !seen.admits)
    ensures var next := HandlerNext(l, seen, Answer(l.pc));
            && (next.0.pc in Needed(OfDir) || next.0.pc == Returned) && !next.0.pc.Admission?
            && Rank(next.0.pc) < Rank(l.pc) && next.0.req == l.req
            && !next.1.AdmitRun? && !next.1.DropRun? && (next.0.pc.WriteResume? ==> next.1.MakeDir?)
  {
  }

  /** At the step that takes a start past the last point of a kind, the kind is dropped. */
  lemma DoomedDrops(k: Kind, l: LifeRec, seen: Seen)
    requires l.pc in Needed(OfDir)
    requires (l.pc.WriteResume? ==> seen.hasDir) && (l.pc.Admission? ==> !seen.admits)
    requires l.pc in Needed(k)
    ensures var next := HandlerNext(l, seen, Answer(l.pc));
            next.0.pc in Needed(k) || next.1 == DropOf(k)
  {
  }

  /** Past that point nothing of the kind is made. */
  lemma DoomedLeavesGone(k: Kind, l: LifeRec, seen: Seen)
    requires l.pc in Needed(OfDir) && l.pc !in Needed(k)
    ensures HandlerNext(l, seen, Answer(l.pc)).1 in {DropToken, DropDir}
  {
  }

  function DropOf(k: Kind): Effect {
    match k case OfKeys => DropKeys case OfToken => DropToken case OfDir => DropDir
  }

  lemma DroppedIsGone(k: Kind, sh: Shared, max: nat, h: Life, sid: Sid)
    ensures Gone(k, Perform(sh, max, h, sid, DropOf(k)), sid)
  {
  }

  lemma GoneStaysGone(k: Kind, sh: Shared, max: nat, h: Life, sid: Sid, e: Effect)
    requires Gone(k, sh, sid) && e in {DropToken, DropDir}
    ensures Gone(k, Perform(sh, max, h, sid, e), sid)
  {
  }

  ghost predicate OthersStand(s: State, s': State, h: Life) {
    && h in s.lives && h in s'.lives && s'.lives == s.lives[h := s'.lives[h]]
    && (s'.sh.tracker, s'.shut, s'.log) == (s.sh.tracker, s.shut, s.log)
  }

  lemma DoomedStep(s: State, h: Life, sid: Sid)
    requires Doomed(s, h, sid)
    ensures var s' := HandlerStep(s, h, Answer(s.lives[h].pc));
            && OthersStand(s, s', h) && Rank(s'.lives[h].pc) < Rank(s.lives[h].pc)
            && (s'.lives[h].pc == Returned || Doomed(s', h, sid))
  {
    var l, seen := s.lives[h], Look(s, h, sid);
    DoomedNext(l, seen);
    HandlerLeaves(s, h, Answer(l.pc));
  }

  /** The kind is gone, or will have been dropped when the start is through. */
  ghost predicate AtStake(k: Kind, s: State, h: Life, sid: Sid)
    requires h in s.lives
  {
    s.lives[h].pc in Needed(k) || Gone(k, s.sh, sid)
  }

  lemma DoomedKind(k: Kind, s: State, h: Life, sid: Sid)
    requires Doomed(s, h, sid) && AtStake(k, s, h, sid)
    ensures AtStake(k, HandlerStep(s, h, Answer(s.lives[h].pc)), h, sid)
  {
    var l, seen := s.lives[h], Look(s, h, sid);
    DoomedNext(l, seen);
    HandlerLeaves(s, h, Answer(l.pc));
    if l.pc in Needed(k) {
      DoomedDrops(k, l, seen);
      DroppedIsGone(k, s.sh, s.max, h, sid);
    } else {
      DoomedLeavesGone(k, l, seen);
      GoneStaysGone(k, s.sh, s.max, h, sid, HandlerNext(l, seen, Answer(l.pc)).1);
    }
  }

  lemma StandAcross(s: State, mid: State, s': State, h: Life)
    requires OthersStand(s, mid, h) && OthersStand(mid, s', h)
    ensures OthersStand(s, s', h)
  {
    assert s.lives[h := mid.lives[h]][h := s'.lives[h]] == s.lives[h := s'.lives[h]];
  }

  lemma ThroughMeansGone(k: Kind, s: State, h: Life, sid: Sid)
    requires h in s.lives && s.lives[h].pc == Returned && AtStake(k, s, h, sid)
    ensures Gone(k, s.sh, sid)
  {
  }

  /** It runs down: whatever kind its point still matters to is gone in the end. */
  lemma {:induction false} RunsDown(c: Config, acts: seq<Action>, s: State, h: Life, sid: Sid, k: Kind)
    returns (acts': seq<Action>, s': State)
    requires Reaches(c, acts, s) && Doomed(s, h, sid) && AtStake(k, s, h, sid)
    ensures Reaches(c, acts', s') && OthersStand(s, s', h) && Gone(k, s'.sh, sid)
    decreases Rank(s.lives[h].pc)
  {
    var ok := Answer(s.lives[h].pc);
    var mid := HandlerStep(s, h, ok);
    DoomedStep(s, h, sid);
    DoomedKind(k, s, h, sid);
    Extend(c, acts, s, Handler(h, ok));
    acts' := acts + [Handler(h, ok)];
    if mid.lives[h].pc == Returned {
      ThroughMeansGone(k, mid, h, sid);
      s' := mid;
    } else {
      acts', s' := RunsDown(c, acts', mid, h, sid, k);
      StandAcross(s, mid, s', h);
    }
  }

  // ---------------------------------------------------------------- against a running container

  /** Life 1 runs session "s", its handler long returned; life 0 still stands where it stood. */
  ghost predicate BothAtWork(s: State, sid: Sid, p: StartPc) {
    && s.lives.Keys == {0, 1} && s.lives[0].req.sid == sid && s.lives[0].pc == p && s.lives[1] == RUNNING
    && "s" in s.sh.tracker.byKey && "s" in s.sh.dirs && s.shut.swept == {} && s.log == []
  }

  lemma WinnerMayStart(s: State, c: Config, sid: Sid, resume: bool, p: StartPc)
    requires StandsAlone(s, c, sid, resume, p) && (sid == "s" ==> p !in c.window)
    ensures 1 !in s.lives
    ensures MayPassConflictCheck(s.(lives := s.lives[1 := Host.Requested(Req("s", false))]), 1)
  {
    assert 1 !in s.lives.Keys && forall g :: g in s.lives ==> g in s.lives.Keys;
  }

  /** What a start of "s" that nothing goes wrong with makes of the host. */
  lemma AllGoesWell(s: State, h: Life) returns (row: seq<State>, end: LifeRec, sh: Shared)
    requires h in s.lives && s.lives[h] == Host.Requested(Req("s", false)) && MayPassConflictCheck(s, h)
    requires s.sh.tracker == Tracking.Registry(map[], map[]) && s.sh.reasonLife == map[] && s.max > 0
    ensures HostSteps.HandlerAt(s, h, row, end, sh)
    ensures end == RUNNING
    ensures sh.tracker == Tracking.Registry(map["s" := Tracking.Run(h, "s")], map[]) && sh.reasonLife == map[]
    ensures "s" in sh.dirs
  {
    Ids();
    row, end := HostSteps.StartsAlike(s, h, Req("s", false), ALL_WELL);
    sh := Host.AfterStart(s.sh, s.max, h, Req("s", false), ALL_WELL);
  }

  lemma WinnerStarts(c: Config, sid: Sid, p: StartPc) returns (acts: seq<Action>, s: State)
    requires c.max > 0 && Admitted(c.ids, sid) && p in Needed(OfDir) && (sid == "s" ==> p !in c.window)
    ensures Reaches(c, acts, s) && BothAtWork(s, sid, p)
  {
    Ids();
    var s0, s1, end, row, sh;
    acts, s0 := Reach(c, sid, p.WriteResume?, p);
    WinnerMayStart(s0, c, sid, p.WriteResume?, p);
    acts, s1 := BeginStart(c, acts, s0, 1, Req("s", false));
    row, end, sh := AllGoesWell(s1, 1);
    acts := RowIsARun(c, acts, 1, row, |row| - 1);
    s := s1.(lives := s1.lives[1 := end], sh := sh);
    assert s.lives.Keys == s0.lives.Keys + {1};
  }

  lemma NotItsOwn(s: State, sid: Sid, p: StartPc, k: Kind, s': State)
    requires BothAtWork(s, sid, p) && OthersStand(s, s', 0) && Gone(k, s'.sh, sid)
    requires sid == "s" || (k.OfDir? && !OwnDir(sid))
    ensures 1 in s'.lives && s'.lives[1] == RUNNING && !HasOwn(s', 1, k)
    ensures k.OfKeys? ==> KeysOf(s'.sh, "s") == {}
  {
    assert 1 in s.lives.Keys;
    HasSecrets(1, RUNNING);
  }

  lemma HasSecrets(h: Life, l: LifeRec)
    requires l.req.blank == {}
    ensures AllSecrets(h, l) != {}
  {
    assert KEY_ORDER[0] == GitBearer;
    assert Secret(h, GitBearer) in AllSecrets(h, l);
  }

  lemma IsDoomed(s: State, sid: Sid, p: StartPc, k: Kind)
    requires BothAtWork(s, sid, p) && p in Needed(k) && (sid == "s" || p == Pull)
    ensures Doomed(s, 0, sid) && AtStake(k, s, 0, sid)
  {
    assert 0 in s.lives.Keys;
  }

  /** A start of `sid` that stands at `p` while "s" gets its container, and then fails, takes it. */
  lemma StartTakes(c: Config, sid: Sid, p: StartPc, k: Kind) returns (acts: seq<Action>, s: State)
    requires c.max > 0 && Admitted(c.ids, sid) && p in Needed(k)
    requires if sid == "s" then p !in c.window else k.OfDir? && !OwnDir(sid) && p == Pull
    ensures Reaches(c, acts, s) && 1 in s.lives && s.lives[1] == RUNNING && !HasOwn(s, 1, k) && s.log == []
    ensures k.OfKeys? ==> KeysOf(s.sh, "s") == {}
  {
    var s1;
    acts, s1 := WinnerStarts(c, sid, p);
    IsDoomed(s1, sid, p, k);
    acts, s := RunsDown(c, acts, s1, 0, sid, k);
    NotItsOwn(s1, sid, p, k, s);
  }

  /** Every point left uncovered does harm, of every kind it matters to. */
  lemma OverlappingStartsInterfere(c: Config, p: StartPc, k: Kind) returns (acts: seq<Action>, s: State)
    requires c.max > 0 && p in Needed(k) && p !in c.window
    ensures Reaches(c, acts, s) && !LiveHave(s, k)
  {
    Ids();
    acts, s := StartTakes(c, "s", p, k);
  }

  /** A failing start of "." takes the run dir of a running session, however apart starts are kept. */
  lemma BaseStartInterferes(c: Config) returns (acts: seq<Action>, s: State)
    requires c.max > 0 && c.ids.SafeIds?
    ensures Reaches(c, acts, s) && !LiveHave(s, OfDir)
  {
    Ids();
    acts, s := StartTakes(c, BASE, Pull, OfDir);
  }

  /** Kind by kind, running containers keep what is theirs in every run exactly when starts of one
      session are kept apart at every point that matters to the kind, and, for run dirs, the ID
      that names the base is not let in. */
  lemma KeptExactlyWhenApart(c: Config, k: Kind)
    requires c.max > 0
    ensures (forall acts, s :: Reaches(c, acts, s) ==> LiveHave(s, k)) <==> Apart(c, k)
  {
    if Apart(c, k) {
      forall acts, s | Reaches(c, acts, s) ensures LiveHave(s, k) { ApartMeansKept(c, acts, s, k); }
    } else if k.OfDir? && c.ids.SafeIds? {
      var acts, s := BaseStartInterferes(c);
    } else {
      var p :| p in Needed(k) && p !in c.window;
      var acts, s := OverlappingStartsInterfere(c, p, k);
    }
  }

  /** All three together: starts kept apart at every point past the conflict check but the three
      that own the tracker entry, to the very return of the handler; and no start of ".". */
  lemma IsolatedExactlyWhenHandlersAreSerial(c: Config)
    requires c.max > 0
    ensures (forall acts, s :: Reaches(c, acts, s) ==> LiveHoldTheirOwn(s)) <==>
              Needed(OfDir) <= c.window && c.ids.OwnDirs?
  {
    KeptExactlyWhenApart(c, OfDir);
    if Apart(c, OfDir) {
      forall acts, s | Reaches(c, acts, s) ensures LiveHoldTheirOwn(s) { SerialStartsAreIsolated(c, acts, s); }
    }
  }

  /** Keeping starts apart until Launch has returned is not enough for any of the three. */
  lemma LaunchReturnIsTooEarly(c: Config, k: Kind)
    requires c.max > 0 && c.window == Needed(OfDir) - {ForgetKeys, RevokeLlm, RemoveDir}
    ensures exists acts, s :: Reaches(c, acts, s) && !LiveHave(s, k)
  {
    var acts, s := OverlappingStartsInterfere(c, ForgetKeys, k);
  }

  // ---------------------------------------------------------------- bridged lines

  /** Life 1's next line goes out with nothing masked. */
  lemma OverlappingStartsUnmask(c: Config, p: StartPc) returns (acts: seq<Action>, s: State)
    requires c.max > 0 && p in Needed(OfKeys) && p !in c.window
    ensures Reaches(c, acts, s) && !MaskedLog(s)
  {
    Ids();
    var s0;
    acts, s0 := StartTakes(c, "s", p, OfKeys);
    Extend(c, acts, s0, PumpStep(1, true));
    acts, s := acts + [PumpStep(1, true)], Apply(s0, PumpStep(1, true));
    PumpLogs(s0, 1, true);
    HasSecrets(1, s.lives[1]);
    assert !LineMasked(s, s.log[0]);
  }

  /** Redaction needs starts kept apart exactly where the keys do. */
  lemma MaskedExactlyWhenHandlersAreSerial(c: Config)
    requires c.max > 0
    ensures (forall acts, s :: Reaches(c, acts, s) ==> MaskedLog(s)) <==> Apart(c, OfKeys)
  {
    if Apart(c, OfKeys) {
      forall acts, s | Reaches(c, acts, s) ensures MaskedLog(s) { InvAlways(c, acts, s); }
    } else {
      var p :| p in Needed(OfKeys) && p !in c.window;
      var acts, s := OverlappingStartsUnmask(c, p);
    }
  }

  // ---------------------------------------------------------------- one start after the other

  /** Session "s" is up and its handler has answered 202; nobody else is there. */
  ghost predicate SoleSession(s: State, c: Config) {
    && (s.lives, s.shut, ConfigOf(s)) == (map[0 := RUNNING], Init(c).shut, c) && "s" in s.sh.dirs
    && (s.sh.tracker, s.sh.reasonLife) == (Tracking.Registry(map["s" := Tracking.Run(0, "s")], map[]), map[])
  }

  lemma SoleSessionStarts(c: Config) returns (acts: seq<Action>, s: State)
    requires c.max > 0
    ensures Reaches(c, acts, s) && SoleSession(s, c)
  {
    Ids();
    var s1, end, row, sh;
    acts, s1 := BeginStart(c, [], Init(c), 0, Req("s", false));
    row, end, sh := AllGoesWell(s1, 0);
    acts := RowIsARun(c, acts, 0, row, |row| - 1);
    s := s1.(lives := s1.lives[0 := end], sh := sh);
    assert s.lives == map[0 := RUNNING];
  }

  /** A start of "." on a host with room, that fails to pull its image. */
  lemma BaseStartFails(s: State, h: Life) returns (row: seq<State>, end: LifeRec, sh: Shared)
    requires h in s.lives && s.lives[h] == Host.Requested(Req(BASE, false)) && MayPassConflictCheck(s, h)
    requires Tracking.Sound(s.sh.tracker, s.max) && s.sh.reasonLife == map[]
    requires |s.sh.tracker.byKey| < s.max && BASE !in s.sh.tracker.byKey
    ensures HostSteps.HandlerAt(s, h, row, end, sh) && end.pc == Returned && end.code == 502
    ensures end.req.sid == BASE && sh.dirs == map[]
  {
    Ids();
    row, end := HostSteps.StartsAlike(s, h, Req(BASE, false), NO_PULL);
    sh := Host.AfterStart(s.sh, s.max, h, Req(BASE, false), NO_PULL);
  }

  lemma BaseMayStart(s: State, c: Config)
    requires SoleSession(s, c)
    ensures 1 !in s.lives
    ensures MayPassConflictCheck(s.(lives := s.lives[1 := Host.Requested(Req(BASE, false))]), 1)
  {
  }

  lemma BaseComesAndGoes(c: Config, acts: seq<Action>, s: State)
    returns (more: seq<Action>, s': State, end: LifeRec)
    requires Reaches(c, acts, s) && SoleSession(s, c) && c.max > 1 && c.ids.SafeIds?
    ensures Reaches(c, more, s') && s'.lives == s.lives[1 := end] && s'.shut == s.shut && s'.sh.dirs == map[]
    ensures end.pc == Returned && end.code == 502 && end.req.sid == BASE
  {
    Ids();
    var row, s1, sh;
    BaseMayStart(s, c);
    more, s1 := BeginStart(c, acts, s, 1, Req(BASE, false));
    row, end, sh := BaseStartFails(s1, 1);
    more := RowIsARun(c, more, 1, row, |row| - 1);
    s' := s1.(lives := s1.lives[1 := end], sh := sh);
  }

  /** With no two starts ever at once: "s" runs, a start of "." comes, fails to pull its image and is
      answered 502, and no session has a run dir any more. */
  lemma FailedBaseStartTakesEveryRunDir(c: Config)
    returns (acts: seq<Action>, s: State, more: seq<Action>, s': State)
    requires c.max > 1 && c.ids.SafeIds?
    ensures Reaches(c, acts, s) && SoleSession(s, c)
    ensures Reaches(c, more, s') && AllReturned(s') && 0 in s'.lives && s'.lives[0] == RUNNING
    ensures 1 in s'.lives && s'.lives[1].req.sid == BASE && s'.lives[1].code == 502
    ensures s'.sh.dirs == map[] && !HasOwn(s', 0, OfDir)
  {
    var end;
    acts, s := SoleSessionStarts(c);
    more, s', end := BaseComesAndGoes(c, acts, s);
  }
}
