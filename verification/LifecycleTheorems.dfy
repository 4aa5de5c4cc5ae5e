/** What holds in every run of the host lifecycle, and exactly when. */
module LifecycleTheorems {
  import opened SessionIds
  import opened Lifecycle
  import opened LifecycleOwnership
  import opened LifecycleBacking
  import opened LifecycleResources

  // ---------------------------------------------------------------- how lives develop

  /** Lives only move forward: what was asked never changes, an ended life stays ended. */
  ghost predicate Progress(l: LifeRec, l': LifeRec) {
    && l'.req == l.req
    && (l.sup == Finished ==> l'.sup == Finished)
    && (l.sup != Unspawned ==> l'.sup != Unspawned)
    && (l.container in {Exited, Gone} ==> l'.container in {Exited, Gone})
    && (l.pc == Returned ==> l'.pc == Returned)
  }

  ghost predicate LivesProgress(s: State, s': State) {
    forall h :: h in s.lives ==> h in s'.lives && Progress(s.lives[h], s'.lives[h])
  }

  lemma HandlerProgress(l: LifeRec, seen: Seen, ok: bool)
    requires Coherent(l)
    ensures Progress(l, HandlerNext(l, seen, ok).0)
  {
  }

  lemma SupervisorProgress(l: LifeRec, alt: bool)
    requires Supervised(l.sup)
    ensures Progress(l, SupervisorNext(l, alt).0)
  {
  }

  lemma OneLifeProgress(s: State, s': State, h: Life)
    requires h in s'.lives && s'.lives == s.lives[h := s'.lives[h]]
    requires h in s.lives ==> Progress(s.lives[h], s'.lives[h])
    ensures LivesProgress(s, s')
  {
  }

  lemma HandlerStepProgress(s: State, h: Life, ok: bool)
    requires h in s.lives && Coherent(s.lives[h])
    ensures LivesProgress(s, HandlerStep(s, h, ok))
  {
    HandlerProgress(s.lives[h], Look(s, h, s.lives[h].req.sid), ok);
    OneLifeProgress(s, HandlerStep(s, h, ok), h);
  }

  lemma SupervisorStepProgress(s: State, h: Life, alt: bool)
    requires h in s.lives && Supervised(s.lives[h].sup)
    ensures LivesProgress(s, SupervisorStep(s, h, alt))
  {
    SupervisorProgress(s.lives[h], alt);
    OneLifeProgress(s, SupervisorStep(s, h, alt), h);
  }

  lemma StepProgress(s: State, a: Action)
    requires AllCoherent(s) && Enabled(s, a)
    ensures LivesProgress(s, Apply(s, a))
  {
    match a
    case Begin(h, _) => OneLifeProgress(s, Apply(s, a), h);
    case Handler(h, ok) =>
      assert Coherent(s.lives[h]);
      HandlerStepProgress(s, h, ok);
    case Supervisor(h, alt) => SupervisorStepProgress(s, h, alt);
    case PumpStep(h, emits) => OneLifeProgress(s, PumpNext(s, h, emits), h);
    case ContainerExits(h) => OneLifeProgress(s, Apply(s, a), h);
    case Sweep(ok) => SweepProgress(s, ok);
    case _ =>
  }

  lemma SweepProgress(s: State, ok: bool)
    ensures LivesProgress(s, SweepStep(s, ok))
  {
  }

  // ---------------------------------------------------------------- redaction of bridged lines

  /** Every line was bridged before its run's OnExit, unless the drain bound had fired on that run. */
  ghost predicate TimelyLog(s: State) {
    forall i :: 0 <= i < |s.log| ==> s.log[i].timedOut || !s.log[i].exiting
  }

  /** Every line was bridged with all of its run's keys registered, with the same exception. */
  ghost predicate MaskedLog(s: State) {
    forall i :: 0 <= i < |s.log| ==> LineMasked(s, s.log[i])
  }

  ghost predicate LineMasked(s: State, line: LogLine) {
    && line.life in s.lives
    && (line.timedOut || line.masked == AllSecrets(line.life, s.lives[line.life]))
  }

  lemma OldLinesStayMasked(s: State, s': State)
    requires MaskedLog(s) && LivesProgress(s, s')
    ensures forall i :: 0 <= i < |s.log| ==> LineMasked(s', s.log[i])
  {
    forall i | 0 <= i < |s.log| ensures LineMasked(s', s.log[i]) {
      var h := s.log[i].life;
      assert LineMasked(s, s.log[i]);
      SameSecrets(h, s.lives[h], s'.lives[h], |KEY_ORDER|);
    }
  }

  lemma LogUnchanged(s: State, a: Action)
    requires Enabled(s, a) && !a.PumpStep?
    ensures Apply(s, a).log == s.log
  {
  }

  lemma PumpLogs(s: State, h: Life, emits: bool)
    requires h in s.lives
    ensures var line := LogLine(h, KeysOf(s.sh, s.lives[h].req.sid), OnExitBegun(s.lives[h].sup), s.lives[h].timedOut);
            PumpNext(s, h, emits).log == if emits then s.log + [line] else s.log
  {
  }

  lemma StepKeepsTimelyLog(s: State, a: Action)
    requires AllCoherent(s) && TimelyLog(s) && Enabled(s, a)
    ensures TimelyLog(Apply(s, a))
  {
    if a.PumpStep? {
      assert Coherent(s.lives[a.life]);
      PumpLogs(s, a.life, a.emits);
    } else {
      LogUnchanged(s, a);
    }
  }

  /** While the pump runs and the bound has not fired, the supervisor has not reached onExit, so the
      keys are all there. */
  lemma NewLineIsMasked(s: State, h: Life)
    requires AllCoherent(s) && UsersMatch(s, OfKeys) && h in s.lives
    requires s.lives[h].pump != PumpIdle && s.lives[h].pump != PumpDone && !s.lives[h].timedOut
    ensures KeysOf(s.sh, s.lives[h].req.sid) == AllSecrets(h, s.lives[h])
  {
    assert Coherent(s.lives[h]);
    assert Matches(OfKeys, s.sh, s.shut.swept, h, s.lives[h]);
  }

  lemma PumpKeepsMaskedLog(s: State, h: Life, emits: bool)
    requires MaskedLog(s) && h in s.lives
    requires s.lives[h].timedOut || KeysOf(s.sh, s.lives[h].req.sid) == AllSecrets(h, s.lives[h])
    ensures MaskedLog(PumpNext(s, h, emits))
  {
    var s' := PumpNext(s, h, emits);
    OneLifeProgress(s, s', h);
    OldLinesStayMasked(s, s');
    PumpLogs(s, h, emits);
    SameSecrets(h, s.lives[h], s'.lives[h], |KEY_ORDER|);
  }

  lemma StepKeepsMaskedLog(s: State, a: Action)
    requires AllCoherent(s) && UsersMatch(s, OfKeys) && MaskedLog(s) && Enabled(s, a)
    ensures MaskedLog(Apply(s, a))
  {
    if a.PumpStep? {
      if !s.lives[a.life].timedOut { NewLineIsMasked(s, a.life); }
      PumpKeepsMaskedLog(s, a.life, a.emits);
    } else {
      StepProgress(s, a);
      OldLinesStayMasked(s, Apply(s, a));
      LogUnchanged(s, a);
    }
  }

  // ---------------------------------------------------------------- shutdown

  ghost predicate OutcomeTrue(s: State, sid: Sid) {
    && sid in s.shut.outcomes && sid in s.shut.snapshot && s.shut.snapshot[sid] in s.lives
    && match s.shut.outcomes[sid]
       case AlreadyGone => s.lives[s.shut.snapshot[sid]].sup == Finished
       case Killed(h) => h == s.shut.snapshot[sid] && s.lives[h].container in {Exited, Gone}
       case Refused(h) => h == s.shut.snapshot[sid]
  }

  ghost predicate Listed(pc: ShutPc) {
    !pc.Serving? && !pc.DrainOn? && !pc.HttpDown?
  }

  ghost predicate SweepPcFits(s: State) {
    match s.shut.pc
    case KillGet(sid) => sid in s.shut.todo
    case KillReason(sid, h) => sid in s.shut.todo && sid in s.shut.snapshot && h == s.shut.snapshot[sid]
    case KillSend(sid, h) => sid in s.shut.todo && sid in s.shut.snapshot && h == s.shut.snapshot[sid]
    case SweepDir(sid) => sid in s.shut.todo && OutcomeTrue(s, sid)
    case Stopped => s.shut.todo == {}
    case _ => true
  }

  ghost predicate SnapshotFits(s: State) {
    && (forall sid :: sid in s.sh.tracker.byKey ==>
          sid in s.shut.snapshot && s.shut.snapshot[sid] == s.sh.tracker.byKey[sid].containerId)
    && (forall sid :: sid in s.shut.snapshot ==>
          s.shut.snapshot[sid] in s.lives && s.lives[s.shut.snapshot[sid]].req.sid == sid
          && s.lives[s.shut.snapshot[sid]].sup != Unspawned)
  }

  ghost predicate SweepInv(s: State) {
    && SnapshotFits(s)
    && s.shut.todo <= s.shut.snapshot.Keys
    && (forall sid :: sid in s.sh.dirs ==> sid in s.shut.todo)
    && (forall sid :: sid in s.shut.snapshot && sid !in s.shut.todo ==> OutcomeTrue(s, sid))
    && SweepPcFits(s)
  }

  ghost predicate ShutInv(s: State) {
    s.shut.clean ==>
      && !s.shut.pc.Serving? && !s.shut.pc.DrainOn?
      && AllReturned(s)
      && (Listed(s.shut.pc) ==> SweepInv(s))
  }

  lemma OutcomesStayTrue(s: State, s': State)
    requires LivesProgress(s, s') && s'.shut.snapshot == s.shut.snapshot
    ensures forall sid :: (OutcomeTrue(s, sid) && sid in s'.shut.outcomes
                           && s'.shut.outcomes[sid] == s.shut.outcomes[sid]) ==> OutcomeTrue(s', sid)
  {
  }

  /** Steps of anyone but the shutdown itself. */
  lemma BystanderKeepsShutInv(s: State, s': State)
    requires ShutInv(s) && s'.shut == s.shut && LivesProgress(s, s')
    requires s.shut.clean ==>
               && s'.lives.Keys == s.lives.Keys
               && (forall sid :: sid in s'.sh.dirs ==> sid in s.sh.dirs)
               && (forall sid :: sid in s'.sh.tracker.byKey ==>
                     sid in s.sh.tracker.byKey && s'.sh.tracker.byKey[sid] == s.sh.tracker.byKey[sid])
    ensures ShutInv(s')
  {
    OutcomesStayTrue(s, s');
    if s.shut.clean {
      assert AllReturned(s') by { assert forall h :: h in s'.lives ==> h in s.lives.Keys; }
    }
  }

  lemma ListRunsKeepsShutInv(s: State)
    requires OwnInv(s) && AllHeld(s) && ShutInv(s) && Enabled(s, ListRuns)
    ensures ShutInv(Apply(s, ListRuns))
  {
    var s' := Apply(s, ListRuns);
    if s'.shut.clean {
      forall sid | sid in s.sh.dirs ensures sid in s.sh.tracker.byKey {
        assert DirIsHeld(s, s.sh.dirs[sid].maker, sid);
        assert s.lives[s.sh.dirs[sid].maker].pc == Returned;
        HoldersAreBusy(s, s.sh.dirs[sid].maker);
      }
      forall sid | sid in s.sh.tracker.byKey
        ensures s.lives[s.sh.tracker.byKey[sid].containerId].sup != Unspawned
      {
        assert s.lives[s.sh.tracker.byKey[sid].containerId].pc == Returned;
      }
    }
  }

  /** The kill loop moves to another point of the same iteration. */
  lemma SweepAdvances(s: State, s': State)
    requires SweepInv(s) && LivesProgress(s, s') && SweepPcFits(s')
    requires s'.sh.dirs == s.sh.dirs && s'.sh.tracker.byKey == s.sh.tracker.byKey
    requires s'.shut.snapshot == s.shut.snapshot && s'.shut.todo == s.shut.todo
    requires forall sid :: sid in s.shut.outcomes && sid !in s.shut.todo ==>
               sid in s'.shut.outcomes && s'.shut.outcomes[sid] == s.shut.outcomes[sid]
    ensures SweepInv(s')
  {
    OutcomesStayTrue(s, s');
  }

  /** A listed run has had its container started, and without a tracker entry it has finished. */
  ghost predicate ListedRun(s: State, sid: Sid, h: Life) {
    && h in s.lives && s.lives[h].container in {Running, Exited, Gone}
    && (sid !in s.sh.tracker.byKey ==> s.lives[h].sup == Finished)
  }

  lemma SnapshotRunIsListed(s: State, sid: Sid)
    requires OwnInv(s) && AllReturned(s) && SnapshotFits(s) && sid in s.shut.snapshot
    ensures ListedRun(s, sid, s.shut.snapshot[sid])
  {
    var h := s.shut.snapshot[sid];
    assert Coherent(s.lives[h]);
    SupervisedWasStarted(s.lives[h]);
    if sid !in s.sh.tracker.byKey { UntrackedHasFinished(s, h); }
  }

  lemma SupervisedWasStarted(l: LifeRec)
    requires Coherent(l) && l.pc == Returned && l.sup != Unspawned
    ensures l.container in {Running, Exited, Gone}
  {
  }

  lemma UntrackedHasFinished(s: State, h: Life)
    requires OwnerIsTracked(s) && h in s.lives && s.lives[h].sup != Unspawned
    requires s.lives[h].req.sid !in s.sh.tracker.byKey
    ensures s.lives[h].sup == Finished
  {
    assert !Owns(s.lives[h]);
  }

  lemma KillGetKeepsSweepInv(s: State, ok: bool)
    requires s.shut.pc.KillGet? && SweepInv(s)
    requires s.shut.pc.sid in s.shut.snapshot
    requires ListedRun(s, s.shut.pc.sid, s.shut.snapshot[s.shut.pc.sid])
    ensures SweepInv(SweepStep(s, ok))
  {
    var s', sid := SweepStep(s, ok), s.shut.pc.sid;
    if sid in s.sh.tracker.byKey {
      assert SweepPcFits(s');
    } else {
      assert OutcomeTrue(s', sid);
    }
    SweepAdvances(s, s');
  }

  lemma KillSendKeepsSweepInv(s: State, ok: bool)
    requires s.shut.pc.KillSend? && SweepInv(s)
    requires ListedRun(s, s.shut.pc.sid, s.shut.pc.life)
    ensures SweepInv(SweepStep(s, ok))
  {
    var s' := SweepStep(s, ok);
    SweepProgress(s, ok);
    KillSendOutcome(s, ok);
    SweepAdvances(s, s');
  }

  lemma KillSendOutcome(s: State, ok: bool)
    requires s.shut.pc.KillSend? && SweepPcFits(s)
    requires ListedRun(s, s.shut.pc.sid, s.shut.pc.life)
    ensures SweepPcFits(SweepStep(s, ok))
  {
  }

  lemma SweepDirKeepsSweepInv(s: State, ok: bool)
    requires s.shut.pc.SweepDir? && SweepInv(s)
    ensures SweepInv(SweepStep(s, ok))
  {
    OutcomesStayTrue(s, SweepStep(s, ok));
  }

  lemma SweepKeepsSweepInv(s: State, ok: bool)
    requires SweepInv(s) && Enabled(s, Sweep(ok))
    requires forall sid :: sid in s.shut.snapshot ==> ListedRun(s, sid, s.shut.snapshot[sid])
    ensures SweepInv(SweepStep(s, ok))
  {
    match s.shut.pc
    case KillGet(_) => KillGetKeepsSweepInv(s, ok);
    case KillReason(_, _) => SweepAdvances(s, SweepStep(s, ok));
    case KillSend(_, _) => KillSendKeepsSweepInv(s, ok);
    case SweepDir(_) => SweepDirKeepsSweepInv(s, ok);
  }

  lemma SweepKeepsShutInv(s: State, ok: bool)
    requires OwnInv(s) && ShutInv(s) && Enabled(s, Sweep(ok))
    ensures ShutInv(SweepStep(s, ok))
  {
    SweepKeepsReturned(s, ok);
    if s.shut.clean {
      forall sid | sid in s.shut.snapshot ensures ListedRun(s, sid, s.shut.snapshot[sid]) {
        SnapshotRunIsListed(s, sid);
      }
      SweepKeepsSweepInv(s, ok);
    }
  }

  lemma SweepKeepsReturned(s: State, ok: bool)
    requires Enabled(s, Sweep(ok))
    ensures SweepStep(s, ok).shut.clean == s.shut.clean && Listed(SweepStep(s, ok).shut.pc)
    ensures AllReturned(s) ==> AllReturned(SweepStep(s, ok))
  {
    SweepKeepsPcs(s, ok);
    SweepStaysListed(s, ok);
  }

  lemma SweepStaysListed(s: State, ok: bool)
    requires s.shut.pc.KillGet? || s.shut.pc.KillReason? || s.shut.pc.KillSend? || s.shut.pc.SweepDir?
    ensures SweepStep(s, ok).shut.clean == s.shut.clean && Listed(SweepStep(s, ok).shut.pc)
  {
  }

  lemma SweepKeepsPcs(s: State, ok: bool)
    ensures var s' := SweepStep(s, ok);
            s'.lives.Keys == s.lives.Keys && forall h :: h in s.lives ==> s'.lives[h].pc == s.lives[h].pc
  {
  }

  lemma SupervisorOnlyReleases(s: State, h: Life, alt: bool)
    requires h in s.lives
    ensures var s' := SupervisorStep(s, h, alt);
            && (forall sid :: sid in s'.sh.dirs ==> sid in s.sh.dirs)
            && (forall sid :: sid in s'.sh.tracker.byKey ==>
                  sid in s.sh.tracker.byKey && s'.sh.tracker.byKey[sid] == s.sh.tracker.byKey[sid])
            && s'.shut == s.shut && s'.lives.Keys == s.lives.Keys
  {
  }

  lemma StepKeepsShutInv(s: State, a: Action)
    requires OwnInv(s) && AllHeld(s) && ShutInv(s) && Enabled(s, a)
    ensures ShutInv(Apply(s, a))
  {
    match a
    case ListRuns => ListRunsKeepsShutInv(s);
    case Sweep(ok) => SweepKeepsShutInv(s, ok);
    case PickRun(_) => ShutdownProceeds(s, a);
    case BeginDrain => ShutdownProceeds(s, a);
    case HttpShutdown => ShutdownProceeds(s, a);
    case Supervisor(h, alt) =>
      StepProgress(s, a);
      SupervisorOnlyReleases(s, h, alt);
      BystanderKeepsShutInv(s, Apply(s, a));
    case _ =>
      StepProgress(s, a);
      BystandersLeaveShutdown(s, a);
      BystanderKeepsShutInv(s, Apply(s, a));
  }

  lemma ShutdownProceeds(s: State, a: Action)
    requires ShutInv(s) && Enabled(s, a) && (a.PickRun? || a.BeginDrain? || a.HttpShutdown?)
    ensures ShutInv(Apply(s, a))
  {
    OutcomesStayTrue(s, Apply(s, a));
  }

  lemma BystandersLeaveShutdown(s: State, a: Action)
    requires ShutInv(s) && Enabled(s, a)
    requires a.Begin? || a.Handler? || a.ContainerExits? || a.PumpStep? || a.Reason?
    ensures var s' := Apply(s, a);
            && s'.shut == s.shut
            && (s.shut.clean ==>
                  && s'.lives.Keys == s.lives.Keys && s'.sh.dirs == s.sh.dirs
                  && s'.sh.tracker.byKey == s.sh.tracker.byKey)
  {
  }

  // ---------------------------------------------------------------- every run

  ghost predicate Inv(s: State) {
    && OwnInv(s) && AllHeld(s) && TimelyLog(s) && ShutInv(s)
    && (s.ids.OwnDirs? ==> NoBase(s))
    && (Apart(ConfigOf(s), OfKeys) ==> ResInv(s, OfKeys) && MaskedLog(s))
    && (Apart(ConfigOf(s), OfToken) ==> ResInv(s, OfToken))
    && (Apart(ConfigOf(s), OfDir) ==> ResInv(s, OfDir))
  }

  lemma ConfigIsFixed(s: State, a: Action)
    requires Enabled(s, a)
    ensures ConfigOf(Apply(s, a)) == ConfigOf(s)
  {
  }

  lemma RequestsStay(s: State, s': State)
    requires LivesProgress(s, s') && s'.lives.Keys == s.lives.Keys
    requires forall h :: h in s.lives ==> OwnDir(s.lives[h].req.sid)
    ensures forall h :: h in s'.lives ==> OwnDir(s'.lives[h].req.sid)
  {
    forall h | h in s'.lives ensures OwnDir(s'.lives[h].req.sid) { assert h in s.lives.Keys; }
  }

  lemma SameLives(s: State, a: Action)
    requires Enabled(s, a) && !a.Begin?
    ensures Apply(s, a).lives.Keys == s.lives.Keys
  {
    if a.Sweep? { SweepKeepsPcs(s, a.ok); }
  }

  lemma SweepTargets(s: State, a: Action)
    requires NoBase(s) && TrackedIsOwned(s) && Enabled(s, a)
    ensures var d := Apply(s, a).shut;
            && (forall sid :: sid in d.todo ==> OwnDir(sid))
            && (d.pc.KillGet? || d.pc.KillReason? || d.pc.KillSend? || d.pc.SweepDir? ==> OwnDir(d.pc.sid))
  {
    if a.ListRuns? {
      forall sid | sid in s.sh.tracker.byKey ensures OwnDir(sid) {
        assert OwnDir(s.lives[s.sh.tracker.byKey[sid].containerId].req.sid);
      }
    }
  }

  lemma StepKeepsNoBase(s: State, a: Action)
    requires OwnInv(s) && NoBase(s) && Enabled(s, a) && s.ids.OwnDirs?
    ensures NoBase(Apply(s, a))
  {
    SweepTargets(s, a);
    if !a.Begin? {
      StepProgress(s, a);
      SameLives(s, a);
      RequestsStay(s, Apply(s, a));
    }
  }

  lemma StepKeepsInv(s: State, a: Action)
    requires Inv(s) && Enabled(s, a)
    ensures Inv(Apply(s, a))
  {
    ConfigIsFixed(s, a);
    StepKeepsOwnership(s, a);
    StepKeepsHeld(s, a);
    StepKeepsTimelyLog(s, a);
    StepKeepsShutInv(s, a);
    if s.ids.OwnDirs? { StepKeepsNoBase(s, a); }
    if Apart(ConfigOf(s), OfKeys) {
      StepKeepsRes(OfKeys, s, a);
      StepKeepsMaskedLog(s, a);
    }
    if Apart(ConfigOf(s), OfToken) { StepKeepsRes(OfToken, s, a); }
    if Apart(ConfigOf(s), OfDir) { StepKeepsRes(OfDir, s, a); }
  }

  lemma {:induction false} InvAlways(c: Config, acts: seq<Action>, s: State)
    requires Reaches(c, acts, s)
    ensures Inv(s) && ConfigOf(s) == c
  {
    if acts != [] {
      var before, a := LastStep(c, acts, s);
      InvAlways(c, acts[..|acts| - 1], before);
      ConfigIsFixed(before, a);
      StepKeepsInv(before, a);
    }
  }

  /** A session that is neither tracked nor being started has no live token, no key and no run dir of
      its making, in every run, however many of its starts overlapped and failed. */
  lemma IdleSessionsAreUntouched(c: Config, acts: seq<Action>, s: State)
    requires Reaches(c, acts, s)
    ensures IdleAreUntouched(s)
  {
    InvAlways(c, acts, s);
    HeldMeansIdleIsUntouched(s);
  }

  lemma UsersHaveTheirOwn(s: State, k: Kind)
    requires AllCoherent(s) && UsersMatch(s, k)
    ensures LiveHave(s, k)
  {
    forall h | h in s.lives && Live(s.lives[h]) ensures HasOwn(s, h, k) {
      assert Coherent(s.lives[h]);
      assert Matches(k, s.sh, s.shut.swept, h, s.lives[h]);
    }
  }

  /** Kind by kind: starts kept apart at the points that matter leave every running container what
      it has of the kind, across any number of reopenings. */
  lemma ApartMeansKept(c: Config, acts: seq<Action>, s: State, k: Kind)
    requires Reaches(c, acts, s) && Apart(c, k)
    ensures LiveHave(s, k)
  {
    InvAlways(c, acts, s);
    UsersHaveTheirOwn(s, k);
  }

  /** Lives of a session never touch each other's state, provided its handlers are kept apart from
      the conflict check on, and no session's run dir is the base. */
  lemma SerialStartsAreIsolated(c: Config, acts: seq<Action>, s: State)
    requires Reaches(c, acts, s) && Apart(c, OfDir)
    ensures Isolated(s)
  {
    ApartMeansKept(c, acts, s, OfKeys);
    ApartMeansKept(c, acts, s, OfToken);
    ApartMeansKept(c, acts, s, OfDir);
    IdleSessionsAreUntouched(c, acts, s);
  }

  /** Every onLog call of a run, the flushed last lines included, comes before the run's OnExit,
      unless the drain bound fired on that very run first; however starts overlap. */
  lemma BridgedLinesPrecedeOnExit(c: Config, acts: seq<Action>, s: State, i: nat)
    requires Reaches(c, acts, s) && i < |s.log|
    ensures s.log[i].exiting ==> s.log[i].timedOut
  {
    InvAlways(c, acts, s);
  }

  /** With starts kept apart as far as the keys need it, such a line also finds all its run's keys
      registered. */
  lemma BridgedLinesAreMasked(c: Config, acts: seq<Action>, s: State, i: nat)
    requires Reaches(c, acts, s) && Apart(c, OfKeys) && i < |s.log|
    ensures s.log[i].life in s.lives
    ensures !s.log[i].timedOut ==>
              !s.log[i].exiting && s.log[i].masked == AllSecrets(s.log[i].life, s.lives[s.log[i].life])
  {
    InvAlways(c, acts, s);
    assert LineMasked(s, s.log[i]);
  }

  lemma SweptMeansComplete(s: State)
    requires SweepInv(s) && s.shut.pc == Stopped
    ensures s.sh.dirs == map[]
    ensures forall sid :: sid in s.sh.tracker.byKey ==> sid in s.shut.snapshot
    ensures forall sid :: sid in s.shut.snapshot ==> OutcomeTrue(s, sid)
  {
    assert forall sid :: sid !in s.sh.dirs;
  }

  /** If the HTTP shutdown left no handler running, then once gracefulShutdown is through every run
      it found was killed, had already finished, or Docker refused the kill of that very run, and
      no run dir of any session is left, whatever the supervisors do meanwhile or later and however
      starts overlapped before. */
  lemma CleanShutdownIsComplete(c: Config, acts: seq<Action>, s: State)
    requires Reaches(c, acts, s)
    requires s.shut.pc == Stopped && s.shut.clean
    ensures s.sh.dirs == map[]
    ensures forall sid :: sid in s.sh.tracker.byKey ==> sid in s.shut.snapshot
    ensures forall sid :: sid in s.shut.snapshot ==> OutcomeTrue(s, sid)
  {
    InvAlways(c, acts, s);
    SweptMeansComplete(s);
  }
}
