/**
 Tracker ownership, for any overlap of starts: each tracked session has exactly one owner, so a
 Remove by session ID never removes another run; the limit holds; reasons are never inherited.
 */
module LifecycleOwnership {
  import opened Tracking
  import opened Lifecycle

  /** What one life's program counters say about each other. */
  ghost predicate Coherent(l: LifeRec) {
    PcFits(l) && PumpFits(l) && ContainerFits(l)
  }

  ghost predicate PcFits(l: LifeRec) {
    && (l.pc != Returned ==> l.sup == Unspawned)
    && (l.pc.AddKeys? ==> l.pc.done < |KEY_ORDER|)
    && (l.pc.WriteResume? ==> l.req.resume)
    && (l.pc == Returned ==> (l.code == 202 <==> l.sup != Unspawned))
    && (l.pc.Untrack? || l.pc.DropContainer? || l.pc.ForgetKeys? || l.pc.RevokeLlm? || l.pc.RemoveDir?
        ==> l.code in {429, 500, 502})
  }

  ghost predicate PumpFits(l: LifeRec) {
    && (l.sup == Unspawned <==> l.pump == PumpIdle)
    && (OnExitBegun(l.sup) ==> l.pump == PumpDone || l.timedOut)
  }

  /** A created container is in the hands of its handler or its supervisor until it is removed. */
  ghost predicate ContainerFits(l: LifeRec) {
    match l.container
    case Absent => l.sup == Unspawned && !l.pc.Attach? && !l.pc.Admission? && !l.pc.StartContainer?
                   && !l.pc.Spawn? && !l.pc.Untrack? && !l.pc.DropContainer?
    case Created => l.pc.Attach? || l.pc.Admission? || l.pc.StartContainer? || l.pc.Untrack? || l.pc.DropContainer?
    case Running => l.pc.Spawn? || l.sup.Waiting? || l.sup.Removing?
    case Exited => l.pc.Spawn? || l.sup.Waiting? || l.sup.Removing?
    case Gone => if l.sup == Unspawned
                 then l.pc.ForgetKeys? || l.pc.RevokeLlm? || l.pc.RemoveDir? || l.pc.Returned?
                 else !l.sup.Waiting? && !l.sup.Removing?
  }

  ghost predicate AllCoherent(s: State) {
    forall h :: h in s.lives ==> Coherent(s.lives[h])
  }

  ghost predicate TrackedIsOwned(s: State) {
    forall sid :: sid in s.sh.tracker.byKey ==>
      var h := s.sh.tracker.byKey[sid].containerId;
      && s.sh.tracker.byKey[sid] == Run(h, sid)
      && h in s.lives && s.lives[h].req.sid == sid && Owns(s.lives[h])
  }

  ghost predicate OwnerIsTracked(s: State) {
    forall h :: h in s.lives && Owns(s.lives[h]) ==>
      s.lives[h].req.sid in s.sh.tracker.byKey
      && s.sh.tracker.byKey[s.lives[h].req.sid] == Run(h, s.lives[h].req.sid)
  }

  ghost predicate ReasonsAreOwn(s: State) {
    && s.sh.reasonLife.Keys == s.sh.tracker.reason.Keys
    && s.sh.tracker.reason.Keys <= s.sh.tracker.byKey.Keys
    && (forall sid :: sid in s.sh.reasonLife && sid in s.sh.tracker.byKey ==>
          s.sh.reasonLife[sid] == s.sh.tracker.byKey[sid].containerId)
    && (forall h :: h in s.labels ==> s.labels[h] == h)
  }

  ghost predicate OwnInv(s: State) {
    && AllCoherent(s)
    && |s.sh.tracker.byKey| <= s.max
    && TrackedIsOwned(s) && OwnerIsTracked(s) && ReasonsAreOwn(s)
  }

  lemma AdmitSize(m: map<string, Run>, sid: string, r: Run)
    requires sid !in m
    ensures |m[sid := r]| == |m| + 1
  {
    assert m[sid := r].Keys == m.Keys + {sid};
    assert |m[sid := r]| == |m[sid := r].Keys| && |m| == |m.Keys|;
  }

  // ---------------------------------------------------------------- one step

  /** How a life's own step relates to its place in the tracker. */
  ghost predicate OwnsAccordingly(l: LifeRec, l': LifeRec, e: Effect) {
    && (e.AdmitRun? ==> !Owns(l) && Owns(l'))
    && (e.DropRun? ==> Owns(l) && !Owns(l'))
    && (!e.AdmitRun? && !e.DropRun? ==> (Owns(l') <==> Owns(l)))
  }

  lemma HandlerKeepsPcs(l: LifeRec, seen: Seen, ok: bool)
    requires PcFits(l) && l.pc != Returned
    ensures PcFits(HandlerNext(l, seen, ok).0)
  {
  }

  lemma HandlerKeepsPump(l: LifeRec, seen: Seen, ok: bool)
    requires PumpFits(l) && l.sup == Unspawned
    ensures PumpFits(HandlerNext(l, seen, ok).0) && HandlerNext(l, seen, ok).0.req == l.req
  {
  }

  lemma HandlerKeepsContainer(l: LifeRec, seen: Seen, ok: bool)
    requires ContainerFits(l) && l.pc != Returned && l.sup == Unspawned
    ensures ContainerFits(HandlerNext(l, seen, ok).0)
  {
  }

  lemma HandlerOwnsAccordingly(l: LifeRec, seen: Seen, ok: bool)
    requires l.pc != Returned && l.sup == Unspawned
    ensures var (l', e) := HandlerNext(l, seen, ok);
            OwnsAccordingly(l, l', e) && (e.AdmitRun? ==> seen.admits)
  {
  }

  lemma HandlerNextIsCoherent(l: LifeRec, seen: Seen, ok: bool)
    requires Coherent(l) && l.pc != Returned
    ensures var (l', e) := HandlerNext(l, seen, ok);
            Coherent(l') && l'.req == l.req && OwnsAccordingly(l, l', e) && (e.AdmitRun? ==> seen.admits)
  {
    HandlerKeepsPcs(l, seen, ok);
    HandlerKeepsPump(l, seen, ok);
    HandlerKeepsContainer(l, seen, ok);
    HandlerOwnsAccordingly(l, seen, ok);
  }

  lemma SupervisorNextIsCoherent(l: LifeRec, alt: bool)
    requires Coherent(l) && Supervised(l.sup) && (l.sup == Draining ==> alt || l.pump == PumpDone)
    ensures var (l', e) := SupervisorNext(l, alt);
            Coherent(l') && l'.req == l.req && OwnsAccordingly(l, l', e) && !e.AdmitRun?
  {
  }

  /** The two states agree on all the ownership invariant looks at. */
  ghost predicate SameOwnership(s: State, s': State) {
    && s'.max == s.max && s'.lives == s.lives && s'.labels == s.labels
    && s'.sh.tracker == s.sh.tracker && s'.sh.reasonLife == s.sh.reasonLife
  }

  lemma LifeUpdateKeepsOwnership(s: State, s': State, h: Life)
    requires OwnInv(s) && h in s'.lives && Coherent(s'.lives[h])
    requires SameOwnership(s.(lives := s.lives[h := s'.lives[h]]), s')
    requires if h in s.lives
             then s'.lives[h].req == s.lives[h].req && (Owns(s'.lives[h]) <==> Owns(s.lives[h]))
             else !Owns(s'.lives[h])
    ensures OwnInv(s')
  {
  }

  lemma PutKeepsCoherent(s: State, s': State, h: Life)
    requires AllCoherent(s) && h in s'.lives && s'.lives == s.lives[h := s'.lives[h]] && Coherent(s'.lives[h])
    ensures AllCoherent(s')
  {
  }

  lemma AdmissionKeepsOwners(s: State, s': State, h: Life)
    requires TrackedIsOwned(s) && OwnerIsTracked(s) && ReasonsAreOwn(s) && h in s.lives && !Owns(s.lives[h])
    requires h in s'.lives && s'.lives == s.lives[h := s'.lives[h]]
    requires s'.lives[h].req == s.lives[h].req && Owns(s'.lives[h])
    requires CanAdmit(s.sh.tracker, s.max, Run(h, s.lives[h].req.sid))
    requires s'.sh.tracker == Admit(s.sh.tracker, s.max, Run(h, s.lives[h].req.sid))
    requires s'.sh.reasonLife == s.sh.reasonLife && s'.labels == s.labels
    ensures TrackedIsOwned(s') && OwnerIsTracked(s') && ReasonsAreOwn(s')
  {
    assert s.lives[h].req.sid !in s.sh.tracker.byKey.Keys;
  }

  lemma AdmitRunDoes(s: State, h: Life, l': LifeRec)
    ensures var s' := Commit(s, h, (l', AdmitRun));
            && s'.max == s.max && s'.labels == s.labels && s'.lives == s.lives[h := l']
            && s'.sh.tracker == Admit(s.sh.tracker, s.max, Run(h, l'.req.sid))
            && s'.sh.reasonLife == s.sh.reasonLife
  {
  }

  lemma AdmissionKeepsOwnership(s: State, h: Life, l': LifeRec)
    requires OwnInv(s) && h in s.lives && !Owns(s.lives[h]) && Owns(l') && Coherent(l')
    requires l'.req == s.lives[h].req && CanAdmit(s.sh.tracker, s.max, Run(h, l'.req.sid))
    ensures OwnInv(Commit(s, h, (l', AdmitRun)))
  {
    AdmitRunDoes(s, h, l');
    AdmissionKeepsAll(s, Commit(s, h, (l', AdmitRun)), h);
  }

  lemma AdmissionKeepsAll(s: State, s': State, h: Life)
    requires OwnInv(s) && h in s.lives && !Owns(s.lives[h])
    requires h in s'.lives && s'.lives == s.lives[h := s'.lives[h]]
    requires s'.lives[h].req == s.lives[h].req && Owns(s'.lives[h]) && Coherent(s'.lives[h])
    requires CanAdmit(s.sh.tracker, s.max, Run(h, s.lives[h].req.sid))
    requires s'.max == s.max && s'.labels == s.labels
    requires s'.sh.tracker == Admit(s.sh.tracker, s.max, Run(h, s.lives[h].req.sid))
    requires s'.sh.reasonLife == s.sh.reasonLife
    ensures OwnInv(s')
  {
    AdmitSize(s.sh.tracker.byKey, s.lives[h].req.sid, Run(h, s.lives[h].req.sid));
    PutKeepsCoherent(s, s', h);
    AdmissionKeepsOwners(s, s', h);
  }

  lemma OwnersDiffer(s: State, g: Life, h: Life)
    requires OwnerIsTracked(s) && g in s.lives && h in s.lives && g != h
    requires Owns(s.lives[g]) && Owns(s.lives[h])
    ensures s.lives[g].req.sid != s.lives[h].req.sid
  {
  }

  lemma RemoveKeepsReasons(s: State, s': State, sid: Sid)
    requires ReasonsAreOwn(s) && s'.labels == s.labels
    requires s'.sh.tracker == Remove(s.sh.tracker, sid) && s'.sh.reasonLife == s.sh.reasonLife - {sid}
    ensures ReasonsAreOwn(s')
  {
    assert s'.sh.tracker.byKey.Keys == s.sh.tracker.byKey.Keys - {sid};
    assert s'.sh.tracker.reason.Keys == s.sh.tracker.reason.Keys - {sid};
    assert s'.sh.reasonLife.Keys == s.sh.reasonLife.Keys - {sid};
  }

  lemma RemoveKeepsOwners(s: State, s': State, h: Life)
    requires TrackedIsOwned(s) && OwnerIsTracked(s) && h in s.lives && Owns(s.lives[h])
    requires h in s'.lives && s'.lives == s.lives[h := s'.lives[h]]
    requires s'.lives[h].req == s.lives[h].req && !Owns(s'.lives[h])
    requires s'.sh.tracker == Remove(s.sh.tracker, s.lives[h].req.sid)
    ensures TrackedIsOwned(s') && OwnerIsTracked(s')
  {
    forall g | g in s'.lives && Owns(s'.lives[g])
      ensures s'.lives[g].req.sid in s'.sh.tracker.byKey
      ensures s'.sh.tracker.byKey[s'.lives[g].req.sid] == Run(g, s'.lives[g].req.sid)
    {
      OwnersDiffer(s, g, h);
    }
  }

  lemma DropRunDoes(s: State, h: Life, l': LifeRec)
    ensures var s' := Commit(s, h, (l', DropRun));
            && s'.max == s.max && s'.labels == s.labels && s'.lives == s.lives[h := l']
            && s'.sh.tracker == Remove(s.sh.tracker, l'.req.sid)
            && s'.sh.reasonLife == s.sh.reasonLife - {l'.req.sid}
  {
  }

  lemma RemoveKeepsOwnership(s: State, h: Life, l': LifeRec)
    requires OwnInv(s) && h in s.lives && Owns(s.lives[h]) && !Owns(l') && Coherent(l')
    requires l'.req == s.lives[h].req
    ensures OwnInv(Commit(s, h, (l', DropRun)))
  {
    var s' := Commit(s, h, (l', DropRun));
    DropRunDoes(s, h, l');
    RemoveKeepsAll(s, s', h);
  }

  lemma RemoveKeepsAll(s: State, s': State, h: Life)
    requires OwnInv(s) && h in s.lives && Owns(s.lives[h])
    requires h in s'.lives && s'.lives == s.lives[h := s'.lives[h]]
    requires s'.lives[h].req == s.lives[h].req && !Owns(s'.lives[h]) && Coherent(s'.lives[h])
    requires s'.max == s.max && s'.labels == s.labels
    requires s'.sh.tracker == Remove(s.sh.tracker, s.lives[h].req.sid)
    requires s'.sh.reasonLife == s.sh.reasonLife - {s.lives[h].req.sid}
    ensures OwnInv(s')
  {
    RemoveShrinks(s.sh.tracker.byKey, s.lives[h].req.sid);
    PutKeepsCoherent(s, s', h);
    RemoveKeepsReasons(s, s', s.lives[h].req.sid);
    RemoveKeepsOwners(s, s', h);
  }

  lemma OtherEffectsKeepTheTracker(sh: Shared, max: nat, h: Life, sid: Sid, e: Effect)
    requires !e.AdmitRun? && !e.DropRun?
    ensures Perform(sh, max, h, sid, e).tracker == sh.tracker
    ensures Perform(sh, max, h, sid, e).reasonLife == sh.reasonLife
  {
  }

  lemma CommitKeepsOwnership(s: State, h: Life, next: (LifeRec, Effect))
    requires OwnInv(s) && h in s.lives && Coherent(next.0) && next.0.req == s.lives[h].req
    requires OwnsAccordingly(s.lives[h], next.0, next.1)
    requires next.1.AdmitRun? ==> CanAdmit(s.sh.tracker, s.max, Run(h, next.0.req.sid))
    ensures OwnInv(Commit(s, h, next))
  {
    if next.1.AdmitRun? { AdmissionKeepsOwnership(s, h, next.0); }
    else if next.1.DropRun? { RemoveKeepsOwnership(s, h, next.0); }
    else {
      OtherEffectsKeepTheTracker(s.sh, s.max, h, next.0.req.sid, next.1);
      LifeUpdateKeepsOwnership(s, Commit(s, h, next), h);
    }
  }

  lemma HandlerKeepsOwnership(s: State, h: Life, ok: bool)
    requires OwnInv(s) && h in s.lives && s.lives[h].pc != Returned
    ensures OwnInv(HandlerStep(s, h, ok))
  {
    var seen := Look(s, h, s.lives[h].req.sid);
    assert Coherent(s.lives[h]);
    HandlerNextIsCoherent(s.lives[h], seen, ok);
    CommitKeepsOwnership(s, h, HandlerNext(s.lives[h], seen, ok));
  }

  lemma SupervisorCommitKeepsOwnership(s: State, h: Life, alt: bool)
    requires OwnInv(s) && h in s.lives && Supervised(s.lives[h].sup)
    requires s.lives[h].sup == Draining ==> alt || s.lives[h].pump == PumpDone
    ensures OwnInv(Commit(s, h, SupervisorNext(s.lives[h], alt)))
  {
    assert Coherent(s.lives[h]);
    SupervisorNextIsCoherent(s.lives[h], alt);
    CommitKeepsOwnership(s, h, SupervisorNext(s.lives[h], alt));
  }

  lemma SupervisorKeepsOwnership(s: State, h: Life, alt: bool)
    requires OwnInv(s) && h in s.lives && Supervised(s.lives[h].sup)
    requires s.lives[h].sup == Draining ==> alt || s.lives[h].pump == PumpDone
    ensures OwnInv(SupervisorStep(s, h, alt))
  {
    SupervisorCommitKeepsOwnership(s, h, alt);
    LabellingReadsOwn(s, h);
    SupervisorLabels(s, h, alt);
    LabelKeepsOwnership(Commit(s, h, SupervisorNext(s.lives[h], alt)), SupervisorStep(s, h, alt), h);
  }

  lemma SupervisorLabels(s: State, h: Life, alt: bool)
    requires h in s.lives
    ensures var s', c := SupervisorStep(s, h, alt), Commit(s, h, SupervisorNext(s.lives[h], alt));
            && s'.max == c.max && s'.lives == c.lives && s'.sh == c.sh && c.labels == s.labels
            && s'.labels == if s.lives[h].sup == Labelling && s.lives[h].req.sid in s.sh.reasonLife
                            then s.labels[h := s.sh.reasonLife[s.lives[h].req.sid]] else s.labels
  {
  }

  /** The reason a supervisor reads was set while its own run was the tracked one. */
  lemma LabellingReadsOwn(s: State, h: Life)
    requires OwnerIsTracked(s) && ReasonsAreOwn(s) && h in s.lives
    ensures s.lives[h].sup == Labelling && s.lives[h].req.sid in s.sh.reasonLife ==>
              s.sh.reasonLife[s.lives[h].req.sid] == h
  {
    if s.lives[h].sup == Labelling { assert Owns(s.lives[h]); }
  }

  lemma LabelKeepsOwnership(s: State, s': State, h: Life)
    requires OwnInv(s) && s'.max == s.max && s'.lives == s.lives && s'.sh == s.sh
    requires s'.labels == s.labels || s'.labels == s.labels[h := h]
    ensures OwnInv(s')
  {
  }

  lemma ReasonKeepsOwnership(s: State, s': State, sid: Sid, why: string)
    requires OwnInv(s)
    requires SameOwnership(s.(sh := NoteReason(s.sh, sid, why)), s')
    ensures OwnInv(s')
  {
    if sid in s.sh.tracker.byKey {
      assert s'.sh.reasonLife.Keys == s.sh.reasonLife.Keys + {sid};
      assert s'.sh.tracker.reason.Keys == s.sh.tracker.reason.Keys + {sid};
    }
  }

  lemma DyingKeepsOwnership(s: State, s': State, h: Life)
    requires OwnInv(s)
    requires SameOwnership(s.(lives := Dying(s, h)), s')
    ensures OwnInv(s')
  {
    if h in s.lives && s.lives[h].container == Running {
      assert Coherent(s.lives[h]);
      LifeUpdateKeepsOwnership(s, s', h);
    }
  }

  lemma PumpKeepsOwnership(s: State, h: Life, emits: bool)
    requires OwnInv(s) && Enabled(s, PumpStep(h, emits))
    ensures OwnInv(PumpNext(s, h, emits))
  {
    assert Coherent(s.lives[h]);
    LifeUpdateKeepsOwnership(s, PumpNext(s, h, emits), h);
  }

  lemma SweepDoes(s: State, ok: bool)
    ensures var s' := SweepStep(s, ok);
            match s.shut.pc
            case KillReason(sid, _) => SameOwnership(s.(sh := NoteReason(s.sh, sid, "killed")), s')
            case KillSend(_, life) => SameOwnership(if ok then s.(lives := Dying(s, life)) else s, s')
            case _ => SameOwnership(s, s')
  {
  }

  lemma SameKeepsOwnership(s: State, s': State)
    requires OwnInv(s) && SameOwnership(s, s')
    ensures OwnInv(s')
  {
  }

  lemma SweepKeepsOwnership(s: State, ok: bool)
    requires OwnInv(s)
    ensures OwnInv(SweepStep(s, ok))
  {
    SweepDoes(s, ok);
    match s.shut.pc
    case KillReason(sid, _) => ReasonKeepsOwnership(s, SweepStep(s, ok), sid, "killed");
    case KillSend(_, life) =>
      if ok { DyingKeepsOwnership(s, SweepStep(s, ok), life); } else { SameKeepsOwnership(s, SweepStep(s, ok)); }
    case _ => SameKeepsOwnership(s, SweepStep(s, ok));
  }

  lemma StepKeepsOwnership(s: State, a: Action)
    requires OwnInv(s) && Enabled(s, a)
    ensures OwnInv(Apply(s, a))
  {
    match a
    case Begin(h, _) => LifeUpdateKeepsOwnership(s, Apply(s, a), h);
    case Handler(h, ok) => HandlerKeepsOwnership(s, h, ok);
    case ContainerExits(h) => DyingKeepsOwnership(s, Apply(s, a), h);
    case Supervisor(h, alt) => SupervisorKeepsOwnership(s, h, alt);
    case PumpStep(h, emits) => PumpKeepsOwnership(s, h, emits);
    case Reason(sid, why) => ReasonKeepsOwnership(s, Apply(s, a), sid, why);
    case Sweep(ok) => SweepKeepsOwnership(s, ok);
    case _ => SameKeepsOwnership(s, Apply(s, a));
  }

  lemma {:induction false} OwnershipAlways(c: Config, acts: seq<Action>, s: State)
    requires Reaches(c, acts, s)
    ensures OwnInv(s)
  {
    if acts != [] {
      var before, a := LastStep(c, acts, s);
      OwnershipAlways(c, acts[..|acts| - 1], before);
      StepKeepsOwnership(before, a);
    }
  }

  // ---------------------------------------------------------------- what it means

  /** In every run, whatever starts overlap: tracker entries and owners are in bijection, the limit
      holds, and a reason on record was set while the run now tracked was the tracked one. */
  lemma EveryTrackedRunHasOneOwner(c: Config, acts: seq<Action>, s: State)
    requires Reaches(c, acts, s)
    ensures |s.sh.tracker.byKey| <= s.max
    ensures forall sid, h :: h in s.lives && s.lives[h].req.sid == sid ==>
              (Owns(s.lives[h]) <==> sid in s.sh.tracker.byKey && s.sh.tracker.byKey[sid].containerId == h)
    ensures forall sid :: sid in s.sh.tracker.byKey ==>
              s.sh.tracker.byKey[sid].containerId in s.lives
              && s.lives[s.sh.tracker.byKey[sid].containerId].req.sid == sid
    ensures forall sid :: sid in s.sh.tracker.reason ==>
              sid in s.sh.tracker.byKey && sid in s.sh.reasonLife
              && s.sh.reasonLife[sid] == s.sh.tracker.byKey[sid].containerId
    ensures forall h :: h in s.labels ==> s.labels[h] == h
  {
    OwnershipAlways(c, acts, s);
    forall sid | sid in s.sh.tracker.reason
      ensures sid in s.sh.tracker.byKey && sid in s.sh.reasonLife
    {
      assert sid in s.sh.tracker.reason.Keys;
    }
  }

  /** A step that takes a session out of the tracker is the own step of the run it takes out. */
  lemma RemoveTakesOnlyTheCallersRun(c: Config, acts: seq<Action>, s: State, a: Action, sid: Sid)
    requires Reaches(c, acts, s) && Enabled(s, a)
    requires sid in s.sh.tracker.byKey
    requires sid !in Apply(s, a).sh.tracker.byKey || Apply(s, a).sh.tracker.byKey[sid] != s.sh.tracker.byKey[sid]
    ensures a.Handler? || a.Supervisor?
    ensures a.life == s.sh.tracker.byKey[sid].containerId
    ensures sid !in Apply(s, a).sh.tracker.byKey
    ensures s.lives[a.life].pc == Untrack || s.lives[a.life].sup == Releasing
  {
    OwnershipAlways(c, acts, s);
    match a
    case Handler(h, ok) => HandlerDropsItsOwn(s, h, ok, sid);
    case Supervisor(h, alt) => SupervisorDropsItsOwn(s, h, alt, sid);
    case _ => OthersTrackTheSame(s, a);
  }

  lemma OthersTrackTheSame(s: State, a: Action)
    requires Enabled(s, a) && !a.Handler? && !a.Supervisor?
    ensures Apply(s, a).sh.tracker.byKey == s.sh.tracker.byKey
  {
    if a.Sweep? { SweepTracksTheSame(s, a.ok); }
  }

  /** The entry stays as it is, or goes, as the own one of life `h`. */
  ghost predicate StaysOrIsOwn(t: Registry, t': Registry, h: Life, sid: Sid, drops: bool) {
    sid in t.byKey ==>
      if sid in t'.byKey then t'.byKey[sid] == t.byKey[sid] else drops && t.byKey[sid] == Run(h, sid)
  }

  lemma HandlerDropsItsOwn(s: State, h: Life, ok: bool, sid: Sid)
    requires AllCoherent(s) && OwnerIsTracked(s) && h in s.lives && s.lives[h].pc != Returned
    ensures StaysOrIsOwn(s.sh.tracker, HandlerStep(s, h, ok).sh.tracker, h, sid, s.lives[h].pc == Untrack)
  {
    var l, seen := s.lives[h], Look(s, h, s.lives[h].req.sid);
    assert Coherent(l);
    HandlerNextIsCoherent(l, seen, ok);
    HandlerUntracksOnce(l, seen, ok);
    CommitDropsItsOwn(s, h, HandlerNext(l, seen, ok), sid);
  }

  lemma HandlerUntracksOnce(l: LifeRec, seen: Seen, ok: bool)
    ensures HandlerNext(l, seen, ok).1.DropRun? ==> l.pc == Untrack
  {
  }

  lemma SupervisorDropsItsOwn(s: State, h: Life, alt: bool, sid: Sid)
    requires OwnerIsTracked(s) && h in s.lives && Supervised(s.lives[h].sup)
    ensures StaysOrIsOwn(s.sh.tracker, SupervisorStep(s, h, alt).sh.tracker, h, sid, s.lives[h].sup == Releasing)
  {
    assert Owns(s.lives[h]);
    CommitDropsItsOwn(s, h, SupervisorNext(s.lives[h], alt), sid);
  }

  lemma CommitDropsItsOwn(s: State, h: Life, next: (LifeRec, Effect), sid: Sid)
    requires OwnerIsTracked(s) && h in s.lives && next.0.req == s.lives[h].req
    requires next.1.DropRun? ==> Owns(s.lives[h])
    ensures StaysOrIsOwn(s.sh.tracker, Commit(s, h, next).sh.tracker, h, sid, next.1.DropRun?)
  {
    if !next.1.DropRun? && sid in s.sh.tracker.byKey {
      OthersKeepEntries(s.sh, s.max, h, next.0.req.sid, next.1, sid);
    }
  }

  lemma OthersKeepEntries(sh: Shared, max: nat, h: Life, own: Sid, e: Effect, sid: Sid)
    requires !e.DropRun? && sid in sh.tracker.byKey
    ensures sid in Perform(sh, max, h, own, e).tracker.byKey
    ensures Perform(sh, max, h, own, e).tracker.byKey[sid] == sh.tracker.byKey[sid]
  {
    if !e.AdmitRun? { OtherEffectsKeepTheTracker(sh, max, h, own, e); }
  }

  lemma SweepTracksTheSame(s: State, ok: bool)
    ensures SweepStep(s, ok).sh.tracker.byKey == s.sh.tracker.byKey
  {
    if !s.shut.pc.KillReason? { SweepKeepsTheTracker(s, ok); }
  }

  lemma SweepKeepsTheTracker(s: State, ok: bool)
    requires !s.shut.pc.KillReason?
    ensures SweepStep(s, ok).sh.tracker == s.sh.tracker
  {
  }

  /** A container that exists is still in the hands of its handler or its supervisor; 202 is
      answered exactly for the starts whose container was handed to a supervisor. */
  lemma NoContainerLeaks(c: Config, acts: seq<Action>, s: State, h: Life)
    requires Reaches(c, acts, s) && h in s.lives
    ensures s.lives[h].container in {Created, Running, Exited} ==>
              InHandler(s.lives[h].pc) || s.lives[h].sup in {Waiting, Removing}
    ensures s.lives[h].pc == Returned ==> (s.lives[h].code == 202 <==> s.lives[h].sup != Unspawned)
  {
    OwnershipAlways(c, acts, s);
    assert Coherent(s.lives[h]);
  }
}
