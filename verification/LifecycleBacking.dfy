/**
 What holds however the starts of a session overlap: every run dir, token and key on the host
 belongs to a life of its session that still has it to release.
 */
module LifecycleBacking {
  import opened Options
  import opened Lifecycle
  import opened LifecycleOwnership

  ghost predicate DirIsHeld(s: State, h: Life, sid: Sid) {
    h in s.lives && s.lives[h].req.sid == sid && HoldsDir(s.lives[h])
  }

  ghost predicate TokenIsHeld(s: State, h: Life, sid: Sid) {
    h in s.lives && s.lives[h].req.sid == sid && HoldsToken(s.lives[h])
  }

  ghost predicate SecretIsHeld(s: State, k: Secret, sid: Sid) {
    && k.life in s.lives && s.lives[k.life].req.sid == sid
    && k in Secrets(k.life, s.lives[k.life], KeysDone(s.lives[k.life]))
  }

  ghost predicate DirsAreHeld(s: State) {
    forall sid :: sid in s.sh.dirs ==> DirIsHeld(s, s.sh.dirs[sid].maker, sid)
  }

  ghost predicate TokensAreHeld(s: State) {
    forall sid :: sid in s.sh.tokens ==> TokenIsHeld(s, s.sh.tokens[sid], sid)
  }

  ghost predicate SecretsAreHeld(s: State) {
    forall sid, k :: k in KeysOf(s.sh, sid) ==> SecretIsHeld(s, k, sid)
  }

  ghost predicate AllHeld(s: State) {
    DirsAreHeld(s) && TokensAreHeld(s) && SecretsAreHeld(s)
  }

  // ---------------------------------------------------------------- one life's step

  /** How a life's own step relates to what it holds. */
  ghost predicate HoldsAccordingly(h: Life, l: LifeRec, l': LifeRec, e: Effect) {
    && DirAccordingly(h, l, l', e)
    && TokenAccordingly(l, l', e)
    && (if e.AddKey? then Secrets(h, l', KeysDone(l')) == Secrets(h, l, KeysDone(l)) + {Secret(h, e.kind)}
        else if e.DropKeys? then KeysDone(l') == 0
        else Secrets(h, l', KeysDone(l')) == Secrets(h, l, KeysDone(l)))
  }

  ghost predicate TokenAccordingly(l: LifeRec, l': LifeRec, e: Effect) {
    if e.GrantToken? then !HoldsToken(l) && HoldsToken(l')
    else if e.DropToken? then HoldsToken(l) && !HoldsToken(l')
    else HoldsToken(l') == HoldsToken(l)
  }

  ghost predicate DirAccordingly(h: Life, l: LifeRec, l': LifeRec, e: Effect) {
    match e
    case MakeDir => !HoldsDir(l) && HoldsDir(l') && Transcript(h, l') == None
    case FillDir => HoldsDir(l) && HoldsDir(l') && Transcript(h, l') == Some(h)
    case DropDir => HoldsDir(l) && !HoldsDir(l')
    case _ => HoldsDir(l') == HoldsDir(l) && (HoldsDir(l) ==> Transcript(h, l') == Transcript(h, l))
  }

  lemma OneMoreSecret(h: Life, l: LifeRec, l': LifeRec, done: nat)
    requires done < |KEY_ORDER| && l'.req == l.req
    ensures KEY_ORDER[done] in l.req.blank ==> Secrets(h, l', done + 1) == Secrets(h, l, done)
    ensures KEY_ORDER[done] !in l.req.blank ==>
              Secrets(h, l', done + 1) == Secrets(h, l, done) + {Secret(h, KEY_ORDER[done])}
  {
    var more := Secrets(h, l', done + 1);
    if KEY_ORDER[done] !in l.req.blank { assert Secret(h, KEY_ORDER[done]) in more; }
  }

  lemma SameSecrets(h: Life, l: LifeRec, l': LifeRec, done: nat)
    requires l'.req == l.req
    ensures Secrets(h, l', done) == Secrets(h, l, done)
    ensures Secrets(h, l, 0) == {}
  {
  }

  lemma HandlerDirAccordingly(h: Life, l: LifeRec, seen: Seen, ok: bool)
    requires Coherent(l) && l.pc != Returned
    ensures var (l', e) := HandlerNext(l, seen, ok); DirAccordingly(h, l, l', e)
  {
  }

  lemma HandlerTokenAccordingly(l: LifeRec, seen: Seen, ok: bool)
    requires Coherent(l) && l.pc != Returned
    ensures var (l', e) := HandlerNext(l, seen, ok); TokenAccordingly(l, l', e)
  {
  }

  lemma HandlerKeyCount(l: LifeRec, seen: Seen, ok: bool)
    requires Coherent(l) && l.pc != Returned
    ensures var (l', e) := HandlerNext(l, seen, ok);
            && l'.req == l.req
            && (if l.pc.AddKeys? then
                  && KeysDone(l) == l.pc.done && KeysDone(l') == l.pc.done + 1
                  && e == if KEY_ORDER[l.pc.done] in l.req.blank then Nothing else AddKey(KEY_ORDER[l.pc.done])
                else
                  && !e.AddKey?
                  && KeysDone(l') == if e.DropKeys? then 0 else KeysDone(l))
  {
  }

  lemma HandlerHoldsAccordingly(h: Life, l: LifeRec, seen: Seen, ok: bool)
    requires Coherent(l) && l.pc != Returned
    ensures var (l', e) := HandlerNext(l, seen, ok); HoldsAccordingly(h, l, l', e)
  {
    var next := HandlerNext(l, seen, ok);
    HandlerDirAccordingly(h, l, seen, ok);
    HandlerTokenAccordingly(l, seen, ok);
    HandlerKeyCount(l, seen, ok);
    SameSecrets(h, l, next.0, KeysDone(l));
    if l.pc.AddKeys? { OneMoreSecret(h, l, next.0, l.pc.done); }
  }

  lemma SupervisorHoldsAccordingly(h: Life, l: LifeRec, alt: bool)
    requires Coherent(l) && Supervised(l.sup)
    ensures var (l', e) := SupervisorNext(l, alt); HoldsAccordingly(h, l, l', e)
  {
    var (l', e) := SupervisorNext(l, alt);
    SameSecrets(h, l, l', KeysDone(l));
  }

  // ---------------------------------------------------------------- the invariant is kept

  lemma CommitKeepsDirs(s: State, h: Life, next: (LifeRec, Effect))
    requires DirsAreHeld(s) && h in s.lives && next.0.req == s.lives[h].req
    requires DirAccordingly(h, s.lives[h], next.0, next.1)
    ensures DirsAreHeld(Commit(s, h, next))
  {
    var s' := Commit(s, h, next);
    forall o | o in s'.sh.dirs ensures DirIsHeld(s', s'.sh.dirs[o].maker, o) {
      if o in s.sh.dirs { assert DirIsHeld(s, s.sh.dirs[o].maker, o); }
    }
  }

  lemma CommitKeepsTokens(s: State, h: Life, next: (LifeRec, Effect))
    requires TokensAreHeld(s) && h in s.lives && next.0.req == s.lives[h].req
    requires TokenAccordingly(s.lives[h], next.0, next.1)
    ensures TokensAreHeld(Commit(s, h, next))
  {
    var s' := Commit(s, h, next);
    forall o | o in s'.sh.tokens ensures TokenIsHeld(s', s'.sh.tokens[o], o) {
      if o in s.sh.tokens { assert TokenIsHeld(s, s.sh.tokens[o], o); }
    }
  }

  lemma CommitKeepsSecrets(s: State, h: Life, next: (LifeRec, Effect))
    requires SecretsAreHeld(s) && h in s.lives && next.0.req == s.lives[h].req
    requires HoldsAccordingly(h, s.lives[h], next.0, next.1)
    ensures SecretsAreHeld(Commit(s, h, next))
  {
    var s' := Commit(s, h, next);
    forall o, k | k in KeysOf(s'.sh, o) ensures SecretIsHeld(s', k, o) {
      if k in KeysOf(s.sh, o) { assert SecretIsHeld(s, k, o); }
    }
  }

  lemma CommitKeepsHeld(s: State, h: Life, next: (LifeRec, Effect))
    requires AllHeld(s) && h in s.lives && next.0.req == s.lives[h].req
    requires HoldsAccordingly(h, s.lives[h], next.0, next.1)
    ensures AllHeld(Commit(s, h, next))
  {
    CommitKeepsDirs(s, h, next);
    CommitKeepsTokens(s, h, next);
    CommitKeepsSecrets(s, h, next);
  }

  /** Every life is as far in its handler and supervisor as it was. */
  ghost predicate LivesStand(s: State, s': State) {
    forall h :: h in s.lives ==>
      && h in s'.lives && s'.lives[h].req == s.lives[h].req
      && s'.lives[h].pc == s.lives[h].pc && s'.lives[h].sup == s.lives[h].sup
  }

  ghost predicate OnlyDirsGo(sh: Shared, sh': Shared) {
    && sh'.tokens == sh.tokens && sh'.keys == sh.keys
    && (forall sid :: sid in sh'.dirs ==> sid in sh.dirs && sh'.dirs[sid] == sh.dirs[sid])
  }

  lemma QuietKeepsHeld(s: State, s': State)
    requires AllHeld(s) && LivesStand(s, s') && OnlyDirsGo(s.sh, s'.sh)
    ensures AllHeld(s')
  {
    forall sid | sid in s'.sh.dirs ensures DirIsHeld(s', s'.sh.dirs[sid].maker, sid) {
      assert DirIsHeld(s, s.sh.dirs[sid].maker, sid);
    }
    forall sid | sid in s'.sh.tokens ensures TokenIsHeld(s', s'.sh.tokens[sid], sid) {
      assert TokenIsHeld(s, s.sh.tokens[sid], sid);
    }
    forall sid, k | k in KeysOf(s'.sh, sid) ensures SecretIsHeld(s', k, sid) {
      assert SecretIsHeld(s, k, sid);
      SameSecrets(k.life, s.lives[k.life], s'.lives[k.life], KeysDone(s.lives[k.life]));
    }
  }

  lemma HandlerKeepsHeld(s: State, h: Life, ok: bool)
    requires AllCoherent(s) && AllHeld(s) && h in s.lives && s.lives[h].pc != Returned
    ensures AllHeld(HandlerStep(s, h, ok))
  {
    var l, seen := s.lives[h], Look(s, h, s.lives[h].req.sid);
    assert Coherent(l);
    HandlerHoldsAccordingly(h, l, seen, ok);
    HandlerNextIsCoherent(l, seen, ok);
    CommitKeepsHeld(s, h, HandlerNext(l, seen, ok));
  }

  lemma LabellingIsQuiet(s: State, h: Life, alt: bool)
    requires h in s.lives
    ensures var s', c := SupervisorStep(s, h, alt), Commit(s, h, SupervisorNext(s.lives[h], alt));
            s'.lives == c.lives && s'.sh == c.sh && s'.shut == c.shut
  {
  }

  lemma SupervisorKeepsHeld(s: State, h: Life, alt: bool)
    requires AllCoherent(s) && AllHeld(s) && Enabled(s, Supervisor(h, alt))
    ensures AllHeld(SupervisorStep(s, h, alt))
  {
    var l := s.lives[h];
    assert Coherent(l);
    SupervisorHoldsAccordingly(h, l, alt);
    SupervisorNextIsCoherent(l, alt);
    CommitKeepsHeld(s, h, SupervisorNext(l, alt));
    LabellingIsQuiet(s, h, alt);
    QuietKeepsHeld(Commit(s, h, SupervisorNext(l, alt)), SupervisorStep(s, h, alt));
  }

  lemma SweepOnlyRemovesDirs(s: State, ok: bool)
    ensures OnlyDirsGo(s.sh, SweepStep(s, ok).sh)
  {
  }

  lemma LivesStandSweep(s: State, ok: bool)
    ensures LivesStand(s, SweepStep(s, ok))
  {
  }

  lemma StepKeepsHeld(s: State, a: Action)
    requires AllCoherent(s) && AllHeld(s) && Enabled(s, a)
    ensures AllHeld(Apply(s, a))
  {
    match a
    case Handler(h, ok) => HandlerKeepsHeld(s, h, ok);
    case Supervisor(h, alt) => SupervisorKeepsHeld(s, h, alt);
    case Sweep(ok) =>
      SweepOnlyRemovesDirs(s, ok);
      LivesStandSweep(s, ok);
      QuietKeepsHeld(s, Apply(s, a));
    case _ => QuietKeepsHeld(s, Apply(s, a));
  }

  // ---------------------------------------------------------------- what it means

  /** Whatever holds something is a handler under way or the owner of its session's tracker entry. */
  lemma HoldersAreBusy(s: State, h: Life)
    requires OwnerIsTracked(s) && h in s.lives
    requires HoldsDir(s.lives[h]) || HoldsToken(s.lives[h]) || KeysDone(s.lives[h]) > 0
    ensures InHandler(s.lives[h].pc) || s.lives[h].req.sid in s.sh.tracker.byKey
  {
    if !InHandler(s.lives[h].pc) { assert Owns(s.lives[h]); }
  }

  lemma HeldMeansIdleIsUntouched(s: State)
    requires OwnerIsTracked(s) && AllHeld(s)
    ensures IdleAreUntouched(s)
  {
    forall sid | Idle(s, sid) ensures Untouched(s, sid) {
      if sid in s.sh.dirs { HoldersAreBusy(s, s.sh.dirs[sid].maker); }
      if sid in s.sh.tokens { HoldersAreBusy(s, s.sh.tokens[sid]); }
      forall k | k in KeysOf(s.sh, sid) ensures false {
        assert SecretIsHeld(s, k, sid);
        HoldersAreBusy(s, k.life);
      }
    }
  }
}
