/**
 What a session has on the host, kind by kind, when the points that matter for that kind keep its
 starts apart: run dir, token or keys are then those of the one life that may touch them.
 */
module LifecycleResources {
  import opened SessionIds
  import opened Lifecycle
  import opened LifecycleOwnership
  import opened LifecycleBacking

  // ---------------------------------------------------------------- the invariant

  /** The life may yet touch what its session has of this kind. */
  predicate Uses(k: Kind, l: LifeRec) {
    || Supervised(l.sup)
    || (InHandler(l.pc) && match k
          case OfKeys => !l.pc.RevokeLlm? && !l.pc.RemoveDir?
          case OfToken => !l.pc.RemoveDir?
          case OfDir => true)
  }

  ghost predicate DirMatches(sh: Shared, swept: set<Sid>, h: Life, l: LifeRec) {
    var sid := l.req.sid;
    if HoldsDir(l) then
      (sid in swept || sid in sh.dirs) && (sid in sh.dirs ==> sh.dirs[sid] == Dir(h, Transcript(h, l)))
    else sid !in sh.dirs
  }

  ghost predicate TokenMatches(sh: Shared, h: Life, l: LifeRec) {
    (l.req.sid in sh.tokens <==> HoldsToken(l)) && (HoldsToken(l) ==> sh.tokens[l.req.sid] == h)
  }

  ghost predicate KeysMatch(sh: Shared, h: Life, l: LifeRec) {
    KeysOf(sh, l.req.sid) == Secrets(h, l, KeysDone(l))
  }

  ghost predicate Matches(k: Kind, sh: Shared, swept: set<Sid>, h: Life, l: LifeRec) {
    match k
    case OfKeys => KeysMatch(sh, h, l)
    case OfToken => TokenMatches(sh, h, l)
    case OfDir => DirMatches(sh, swept, h, l)
  }

  ghost predicate OneUser(s: State, k: Kind) {
    forall g, h :: (g in s.lives && h in s.lives && Uses(k, s.lives[g]) && Uses(k, s.lives[h])
                    && s.lives[g].req.sid == s.lives[h].req.sid) ==> g == h
  }

  ghost predicate UsersMatch(s: State, k: Kind) {
    forall h :: h in s.lives && Uses(k, s.lives[h]) ==> Matches(k, s.sh, s.shut.swept, h, s.lives[h])
  }

  ghost predicate UserOn(s: State, k: Kind, h: Life, sid: Sid) {
    h in s.lives && s.lives[h].req.sid == sid && Uses(k, s.lives[h])
  }

  ghost predicate ResInv(s: State, k: Kind) {
    OneUser(s, k) && UsersMatch(s, k)
  }

  /** No start of the ID that names the base has been let in. */
  ghost predicate NoBase(s: State) {
    && (forall h :: h in s.lives ==> OwnDir(s.lives[h].req.sid))
    && (forall sid :: sid in s.shut.todo ==> OwnDir(sid))
    && (s.shut.pc.KillGet? || s.shut.pc.KillReason? || s.shut.pc.KillSend? || s.shut.pc.SweepDir? ==>
          OwnDir(s.shut.pc.sid))
  }

  /** Of this kind, sessions other than `sid` have what they had. */
  ghost predicate Framed(k: Kind, sh: Shared, sh': Shared, sid: Sid) {
    forall o :: o != sid ==> SameFor(k, sh, sh', o)
  }

  ghost predicate SameFor(k: Kind, sh: Shared, sh': Shared, o: Sid) {
    match k
    case OfKeys => KeysOf(sh', o) == KeysOf(sh, o)
    case OfToken => (o in sh'.tokens <==> o in sh.tokens) && (o in sh.tokens ==> sh'.tokens[o] == sh.tokens[o])
    case OfDir => (o in sh'.dirs <==> o in sh.dirs) && (o in sh.dirs ==> sh'.dirs[o] == sh.dirs[o])
  }

  ghost predicate SameKind(k: Kind, sh: Shared, sh': Shared) {
    match k
    case OfKeys => sh'.keys == sh.keys
    case OfToken => sh'.tokens == sh.tokens
    case OfDir => sh'.dirs == sh.dirs
  }

  // ---------------------------------------------------------------- one life's step

  lemma PerformFrames(k: Kind, sh: Shared, max: nat, h: Life, sid: Sid, e: Effect)
    requires k.OfDir? ==> OwnDir(sid)
    ensures Framed(k, sh, Perform(sh, max, h, sid, e), sid)
  {
  }

  lemma PerformDir(sh: Shared, max: nat, swept: set<Sid>, h: Life, l: LifeRec, l': LifeRec, e: Effect)
    requires l'.req == l.req && DirAccordingly(h, l, l', e) && DirMatches(sh, swept, h, l)
    ensures DirMatches(Perform(sh, max, h, l.req.sid, e), swept, h, l')
  {
  }

  lemma PerformMatches(k: Kind, sh: Shared, max: nat, swept: set<Sid>, h: Life, l: LifeRec, l': LifeRec, e: Effect)
    requires l'.req == l.req && HoldsAccordingly(h, l, l', e) && Matches(k, sh, swept, h, l)
    ensures Matches(k, Perform(sh, max, h, l.req.sid, e), swept, h, l')
  {
    match k
    case OfDir => PerformDir(sh, max, swept, h, l, l', e);
    case OfKeys => SameSecrets(h, l, l', 0);
    case OfToken =>
  }

  /** A life that no longer uses the kind leaves it alone. */
  lemma LateSteps(k: Kind, l: LifeRec, seen: Seen, ok: bool)
    requires InHandler(l.pc) && !Uses(k, l)
    ensures var next := HandlerNext(l, seen, ok);
            && next.0.req == l.req && !Uses(k, next.0)
            && next.1 == if l.pc.RevokeLlm? then DropToken else DropDir
    ensures if l.pc.RevokeLlm? then k.OfKeys? else !k.OfDir?
  {
    assert l.pc.RevokeLlm? || l.pc.RemoveDir?;
  }

  lemma NonUserLeavesAlone(k: Kind, s: State, h: Life, ok: bool)
    requires h in s.lives && InHandler(s.lives[h].pc) && !Uses(k, s.lives[h])
    ensures SameKind(k, s.sh, HandlerStep(s, h, ok).sh)
    ensures var l' := HandlerStep(s, h, ok).lives[h]; l'.req == s.lives[h].req && !Uses(k, l')
  {
    LateSteps(k, s.lives[h], Look(s, h, s.lives[h].req.sid), ok);
  }

  // ---------------------------------------------------------------- the invariant is kept

  lemma UserSwap(k: Kind, s: State, s': State, h: Life)
    requires ResInv(s, k) && h in s'.lives && s'.lives == s.lives[h := s'.lives[h]]
    requires h in s.lives ==> s'.lives[h].req == s.lives[h].req
    requires Framed(k, s.sh, s'.sh, s'.lives[h].req.sid) && s'.shut.swept == s.shut.swept
    requires forall g :: g != h ==> !UserOn(s, k, g, s'.lives[h].req.sid)
    requires Uses(k, s'.lives[h]) ==> Matches(k, s'.sh, s.shut.swept, h, s'.lives[h])
    ensures ResInv(s', k)
  {
    var sid := s'.lives[h].req.sid;
    assert OneUser(s', k) by {
      forall g | g in s'.lives && g != h && Uses(k, s'.lives[g]) ensures s'.lives[g].req.sid != sid {
        assert !UserOn(s, k, g, sid);
      }
    }
    forall g | g in s'.lives && Uses(k, s'.lives[g]) ensures Matches(k, s'.sh, s'.shut.swept, g, s'.lives[g]) {
      if g != h {
        assert !UserOn(s, k, g, sid);
        assert Matches(k, s.sh, s.shut.swept, g, s.lives[g]);
        assert SameFor(k, s.sh, s'.sh, s.lives[g].req.sid);
      }
    }
  }

  lemma AloneOn(k: Kind, s: State, h: Life)
    requires OneUser(s, k) && h in s.lives && Uses(k, s.lives[h])
    ensures forall g :: g != h ==> !UserOn(s, k, g, s.lives[h].req.sid)
  {
  }

  lemma UserStepKeepsRes(k: Kind, s: State, h: Life, next: (LifeRec, Effect))
    requires ResInv(s, k) && h in s.lives && Uses(k, s.lives[h]) && next.0.req == s.lives[h].req
    requires HoldsAccordingly(h, s.lives[h], next.0, next.1)
    requires k.OfDir? ==> OwnDir(next.0.req.sid)
    ensures ResInv(Commit(s, h, next), k)
  {
    var l, sid, s' := s.lives[h], next.0.req.sid, Commit(s, h, next);
    AloneOn(k, s, h);
    assert Matches(k, s.sh, s.shut.swept, h, l);
    PerformFrames(k, s.sh, s.max, h, sid, next.1);
    PerformMatches(k, s.sh, s.max, s.shut.swept, h, l, next.0, next.1);
    UserSwap(k, s, s', h);
  }

  /** A life that did not use the kind and still does not, or has got no further. */
  lemma QuietStepKeepsRes(k: Kind, s: State, s': State, h: Life)
    requires ResInv(s, k) && h in s'.lives && s'.lives == s.lives[h := s'.lives[h]]
    requires SameKind(k, s.sh, s'.sh) && s'.shut.swept == s.shut.swept
    requires if h in s.lives && Uses(k, s.lives[h])
             then s'.lives[h].req == s.lives[h].req && s'.lives[h].pc == s.lives[h].pc
                  && s'.lives[h].sup == s.lives[h].sup
             else !Uses(k, s'.lives[h])
    ensures ResInv(s', k)
  {
    if h in s.lives && Uses(k, s.lives[h]) {
      SameSecrets(h, s.lives[h], s'.lives[h], KeysDone(s.lives[h]));
      AloneOn(k, s, h);
      assert Matches(k, s.sh, s.shut.swept, h, s.lives[h]);
      UserSwap(k, s, s', h);
    } else {
      SameViewForOthers(k, s, s', h);
    }
  }

  lemma SameViewForOthers(k: Kind, s: State, s': State, h: Life)
    requires ResInv(s, k) && h in s'.lives && s'.lives == s.lives[h := s'.lives[h]] && !Uses(k, s'.lives[h])
    requires SameKind(k, s.sh, s'.sh) && s'.shut.swept == s.shut.swept
    ensures ResInv(s', k)
  {
    forall g | g in s'.lives && Uses(k, s'.lives[g]) ensures Matches(k, s'.sh, s'.shut.swept, g, s'.lives[g]) {
      assert Matches(k, s.sh, s.shut.swept, g, s.lives[g]);
    }
  }

  /** A user of the kind is at a point that keeps others out, or owns the tracker entry. */
  lemma UsersAreKeptApart(k: Kind, l: LifeRec)
    requires Coherent(l) && Uses(k, l) && !Owns(l)
    ensures l.pc in Needed(k)
  {
  }

  /** With nobody on the session who may touch it, nothing of the kind is there. */
  lemma NobodyMeansNothing(k: Kind, s: State, sid: Sid)
    requires AllHeld(s) && forall g :: !UserOn(s, k, g, sid)
    ensures match k
            case OfKeys => KeysOf(s.sh, sid) == {}
            case OfToken => sid !in s.sh.tokens
            case OfDir => sid !in s.sh.dirs
  {
    match k
    case OfKeys =>
      forall x | x in KeysOf(s.sh, sid) ensures false {
        assert SecretIsHeld(s, x, sid);
        assert UserOn(s, OfKeys, x.life, sid);
      }
    case OfToken => if sid in s.sh.tokens { assert UserOn(s, OfToken, s.sh.tokens[sid], sid); }
    case OfDir => if sid in s.sh.dirs { assert UserOn(s, OfDir, s.sh.dirs[sid].maker, sid); }
  }

  /** Passing the conflict check: with no other start of the session at a point that matters and no
      tracker entry, nothing of the kind is left for the newcomer to inherit. */
  lemma PassingConflictCheckKeepsRes(k: Kind, s: State, h: Life, l': LifeRec)
    requires Needed(k) <= s.window && AllCoherent(s) && OwnerIsTracked(s) && AllHeld(s) && ResInv(s, k)
    requires h in s.lives && s.lives[h].pc == ConflictCheck && MayPassConflictCheck(s, h)
    requires s.lives[h].req.sid !in s.sh.tracker.byKey
    requires l' == s.lives[h].(pc := Mkdir)
    ensures ResInv(Commit(s, h, (l', Nothing)), k)
  {
    var sid := l'.req.sid;
    assert Coherent(s.lives[h]);
    forall g ensures !UserOn(s, k, g, sid) {
      if g != h && UserOn(s, k, g, sid) {
        assert Coherent(s.lives[g]);
        UsersAreKeptApart(k, s.lives[g]);
      }
    }
    NobodyMeansNothing(k, s, sid);
    SameSecrets(h, l', l', 0);
    UserSwap(k, s, Commit(s, h, (l', Nothing)), h);
  }

  lemma EarlyStepKeepsRes(k: Kind, s: State, h: Life, ok: bool)
    requires ResInv(s, k) && h in s.lives && Coherent(s.lives[h])
    requires s.lives[h].pc == CapacityCheck || s.lives[h].pc == ConflictCheck
    requires HandlerNext(s.lives[h], Look(s, h, s.lives[h].req.sid), ok).0.pc != Mkdir
    ensures ResInv(HandlerStep(s, h, ok), k)
  {
    QuietStepKeepsRes(k, s, HandlerStep(s, h, ok), h);
  }

  lemma HandlerKeepsRes(k: Kind, s: State, h: Life, ok: bool)
    requires Needed(k) <= s.window && AllCoherent(s) && OwnerIsTracked(s) && AllHeld(s) && ResInv(s, k)
    requires Enabled(s, Handler(h, ok)) && (k.OfDir? ==> OwnDir(s.lives[h].req.sid))
    ensures ResInv(HandlerStep(s, h, ok), k)
  {
    var l, seen := s.lives[h], Look(s, h, s.lives[h].req.sid);
    var next := HandlerNext(l, seen, ok);
    assert Coherent(l);
    if Uses(k, l) {
      HandlerHoldsAccordingly(h, l, seen, ok);
      HandlerNextIsCoherent(l, seen, ok);
      UserStepKeepsRes(k, s, h, next);
    } else if InHandler(l.pc) {
      NonUserLeavesAlone(k, s, h, ok);
      QuietStepKeepsRes(k, s, HandlerStep(s, h, ok), h);
    } else if next.0.pc == Mkdir {
      PassingConflictCheckKeepsRes(k, s, h, next.0);
    } else {
      EarlyStepKeepsRes(k, s, h, ok);
    }
  }

  lemma SupervisorKeepsRes(k: Kind, s: State, h: Life, alt: bool)
    requires AllCoherent(s) && ResInv(s, k) && h in s.lives && Supervised(s.lives[h].sup)
    requires s.lives[h].sup == Draining ==> alt || s.lives[h].pump == PumpDone
    requires k.OfDir? ==> OwnDir(s.lives[h].req.sid)
    ensures ResInv(SupervisorStep(s, h, alt), k)
  {
    var l := s.lives[h];
    var next := SupervisorNext(l, alt);
    assert Coherent(l);
    SupervisorHoldsAccordingly(h, l, alt);
    SupervisorNextIsCoherent(l, alt);
    UserStepKeepsRes(k, s, h, next);
    LabellingIsQuiet(s, h, alt);
    SameResView(k, Commit(s, h, next), SupervisorStep(s, h, alt));
  }

  lemma SameResView(k: Kind, s: State, s': State)
    requires ResInv(s, k) && s'.lives == s.lives && SameKind(k, s.sh, s'.sh) && s'.shut.swept == s.shut.swept
    ensures ResInv(s', k)
  {
    forall h | h in s'.lives && Uses(k, s'.lives[h]) ensures Matches(k, s'.sh, s'.shut.swept, h, s'.lives[h]) {
      assert Matches(k, s.sh, s.shut.swept, h, s.lives[h]);
    }
  }

  lemma DyingKeepsRes(k: Kind, s: State, s': State, h: Life)
    requires ResInv(s, k) && s'.lives == Dying(s, h) && s'.sh == s.sh && s'.shut.swept == s.shut.swept
    ensures ResInv(s', k)
  {
    if h in s.lives && s.lives[h].container == Running { QuietStepKeepsRes(k, s, s', h); }
    else { SameResView(k, s, s'); }
  }

  lemma SweepDirKeepsRes(k: Kind, s: State, s': State, sid: Sid)
    requires ResInv(s, k) && s'.lives == s.lives && s'.sh == s.sh.(dirs := RemoveRunDir(s.sh.dirs, sid))
    requires s'.shut.swept == s.shut.swept + {sid} && (k.OfDir? ==> OwnDir(sid))
    ensures ResInv(s', k)
  {
    forall h | h in s.lives && Uses(k, s.lives[h]) ensures Matches(k, s'.sh, s'.shut.swept, h, s.lives[h]) {
      assert Matches(k, s.sh, s.shut.swept, h, s.lives[h]);
    }
  }

  lemma SweepKeepsRes(k: Kind, s: State, ok: bool)
    requires ResInv(s, k) && (k.OfDir? && s.shut.pc.SweepDir? ==> OwnDir(s.shut.pc.sid))
    ensures ResInv(SweepStep(s, ok), k)
  {
    if s.shut.pc.SweepDir? { SweepDirKeepsRes(k, s, SweepStep(s, ok), s.shut.pc.sid); }
    else { KillingKeepsRes(k, s, ok); }
  }

  lemma KillingKeepsRes(k: Kind, s: State, ok: bool)
    requires ResInv(s, k) && !s.shut.pc.SweepDir?
    ensures ResInv(SweepStep(s, ok), k)
  {
    if s.shut.pc.KillSend? && ok { DyingKeepsRes(k, s, SweepStep(s, ok), s.shut.pc.life); }
    else { SameResView(k, s, SweepStep(s, ok)); }
  }

  lemma StepKeepsRes(k: Kind, s: State, a: Action)
    requires Needed(k) <= s.window && (k.OfDir? ==> NoBase(s))
    requires AllCoherent(s) && OwnerIsTracked(s) && AllHeld(s) && ResInv(s, k) && Enabled(s, a)
    ensures ResInv(Apply(s, a), k)
  {
    match a
    case Begin(h, _) => QuietStepKeepsRes(k, s, Apply(s, a), h);
    case Handler(h, ok) => HandlerKeepsRes(k, s, h, ok);
    case ContainerExits(h) => DyingKeepsRes(k, s, Apply(s, a), h);
    case Supervisor(h, alt) => SupervisorKeepsRes(k, s, h, alt);
    case PumpStep(h, emits) => QuietStepKeepsRes(k, s, PumpNext(s, h, emits), h);
    case Sweep(ok) => SweepKeepsRes(k, s, ok);
    case _ => SameResView(k, s, Apply(s, a));
  }
}
