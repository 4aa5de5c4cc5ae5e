/**
 Exactly when two handlers can be at one run's stdin at once: when a DropSession came between their
 stdinLock calls.
 */
module DeliveryMutexes {
  import opened Options
  import opened Runs
  import opened Delivery
  import opened DeliveryProofs

  // ---------------------------------------------------------------- mutexes and DropSessions

  /** Each DropSession of a session makes room for a newer mutex. */
  ghost predicate NewerInLaterEras(s: State) {
    forall g, h :: (g in s.handlers && h in s.handlers && s.handlers[g].mutex.Some? && s.handlers[h].mutex.Some?
                    && s.handlers[g].req.sid == s.handlers[h].req.sid && s.handlers[g].era < s.handlers[h].era)
      ==> s.handlers[g].mutex.value < s.handlers[h].mutex.value
  }

  /** The map's own mutex is newer than those of handlers from before the last DropSession. */
  ghost predicate IsNewest(s: State, r: Handler) {
    r.mutex.Some? && r.era < EraOf(s, r.req.sid) && r.req.sid in s.mutexes ==>
      r.mutex.value < s.mutexes[r.req.sid]
  }

  ghost predicate EraInv(s: State) {
    NewerInLaterEras(s) && forall h :: h in s.handlers ==> IsNewest(s, s.handlers[h])
  }

  lemma TakeMutexKeepsEraInv(s: State, h: Hid)
    requires MutexInv(s) && EraInv(s) && h in s.handlers && s.handlers[h].pc == NeedMutex
    ensures EraInv(TakeMutex(s, h, s.handlers[h]))
  {
    var s', sid := TakeMutex(s, h, s.handlers[h]), s.handlers[h].req.sid;
    forall g | g in s.handlers && g != h
      ensures IsNewest(s', s'.handlers[g])
      ensures s.handlers[g].mutex.Some? && s.handlers[g].req.sid == sid ==>
                && s.handlers[g].era <= s'.handlers[h].era
                && (s.handlers[g].era < s'.handlers[h].era ==> s.handlers[g].mutex.value < s'.handlers[h].mutex.value)
    {
      assert HandlerFits(s, s.handlers[g]) && IsNewest(s, s.handlers[g]);
    }
  }

  lemma LifecycleKeepsEraInv(s: State, e: EnvStep)
    requires EraInv(s) && EnvEnabled(s.env, e)
    ensures EraInv(LifecycleStep(s, e))
  {
    var s' := LifecycleStep(s, e);
    forall h | h in s'.handlers ensures IsNewest(s', s'.handlers[h]) { assert IsNewest(s, s.handlers[h]); }
  }

  /** A step that changes one handler, but no mutex. */
  lemma StillEraInv(s: State, s': State, h: Hid)
    requires EraInv(s) && h in s'.handlers && s'.handlers == s.handlers[h := s'.handlers[h]]
    requires s'.mutexes == s.mutexes && s'.eras == s.eras
    requires if h in s.handlers
             then s'.handlers[h].req == s.handlers[h].req && s'.handlers[h].mutex == s.handlers[h].mutex
                  && s'.handlers[h].era == s.handlers[h].era
             else s'.handlers[h].mutex == None
    ensures EraInv(s')
  {
    forall g | g in s'.handlers ensures IsNewest(s', s'.handlers[g]) {
      if g in s.handlers { assert IsNewest(s, s.handlers[g]); }
    }
  }

  lemma StepKeepsEraInv(s: State, a: Action)
    requires MutexInv(s) && EraInv(s) && Enabled(s, a)
    ensures EraInv(Apply(s, a))
  {
    match a
    case Arrive(h, _) => StillEraInv(s, Apply(s, a), h);
    case Lifecycle(e) => LifecycleKeepsEraInv(s, e);
    case Step(h, result) =>
      if s.handlers[h].pc == NeedMutex {
        TakeMutexKeepsEraInv(s, h);
      } else {
        StepLocal(s, h, result);
        StillEraInv(s, HandlerStep(s, h, result), h);
      }
  }

  lemma {:induction false} EraInvFrom(s: State, acts: seq<Action>, s': State)
    requires MutexInv(s) && EraInv(s) && ExecFrom(s, acts) == Some(s')
    ensures EraInv(s')
    decreases |acts|
  {
    if acts != [] {
      StepKeepsMutexInv(s, acts[0]);
      StepKeepsEraInv(s, acts[0]);
      EraInvFrom(Apply(s, acts[0]), acts[1..], s');
    }
  }

  /** Two handlers of one session that have called stdinLock have the same mutex if and only if no
      DropSession of it came between their calls. */
  lemma SameMutexExactlyWithoutDrop(acts: seq<Action>, s: State, g: Hid, h: Hid)
    requires Reaches(acts, s) && g in s.handlers && h in s.handlers
    requires s.handlers[g].mutex.Some? && s.handlers[h].mutex.Some?
    requires s.handlers[g].req.sid == s.handlers[h].req.sid
    ensures s.handlers[g].mutex == s.handlers[h].mutex <==> s.handlers[g].era == s.handlers[h].era
  {
    EraInvFrom(Init(), acts, s);
    InvFrom(Init(), acts, s);
  }

  /** In every reachable state, two handlers of one session at work on its stdin had a DropSession
      between their stdinLock calls. */
  lemma OverlapMeansADropBetween(acts: seq<Action>, s: State, g: Hid, h: Hid)
    requires Reaches(acts, s) && g in s.handlers && h in s.handlers && g != h
    requires s.handlers[g].req.sid == s.handlers[h].req.sid
    requires UsesStdin(s.handlers[g]) && UsesStdin(s.handlers[h])
    ensures s.handlers[g].era != s.handlers[h].era
  {
    EraInvFrom(Init(), acts, s);
    InvFrom(Init(), acts, s);
    assert HandlerFits(s, s.handlers[g]) && HandlerFits(s, s.handlers[h]);
  }

  // ---------------------------------------------------------------- the converse

  lemma StepKeepsWho(s: State, a: Action, h: Hid)
    requires Enabled(s, a) && h in s.handlers && s.handlers[h].mutex.Some? && HandlerFits(s, s.handlers[h])
    ensures h in Apply(s, a).handlers
    ensures var (r, r') := (s.handlers[h], Apply(s, a).handlers[h]);
            r'.req == r.req && r'.run == r.run && r'.mutex == r.mutex && r'.era == r.era
  {
    if a.Step? && a.h == h { StepLocal(s, h, a.result); }
  }

  /** Once a handler has called stdinLock, what it got and when stays. */
  lemma {:induction false} WhoStays(s: State, acts: seq<Action>, s': State, h: Hid)
    requires MutexInv(s) && ExecFrom(s, acts) == Some(s')
    requires h in s.handlers && s.handlers[h].mutex.Some?
    ensures h in s'.handlers && s'.handlers[h].req == s.handlers[h].req
    ensures s'.handlers[h].mutex == s.handlers[h].mutex && s'.handlers[h].era == s.handlers[h].era
    decreases |acts|
  {
    if acts != [] {
      assert HandlerFits(s, s.handlers[h]);
      StepKeepsWho(s, acts[0], h);
      StepKeepsMutexInv(s, acts[0]);
      WhoStays(Apply(s, acts[0]), acts[1..], s', h);
    }
  }

  /** The handler waits for a mutex nobody holds, and is not about to be answered as a duplicate. */
  predicate MayEnter(s: State, h: Hid) {
    && h in s.handlers && s.handlers[h].pc == WantLock && s.handlers[h].mutex.Some?
    && s.handlers[h].mutex.value !in s.holders
    && (s.handlers[h].req.Send? && s.handlers[h].req.id != "" ==> Key(s.handlers[h].req) !in s.dedup)
  }

  predicate SameMessage(a: Request, b: Request) {
    a.Send? && b.Send? && a.id != "" && Key(a) == Key(b)
  }

  lemma Enters(s: State, h: Hid) returns (acts: seq<Action>, s': State)
    requires MayEnter(s, h)
    ensures ExecFrom(s, acts) == Some(s') && h in s'.handlers && UsesStdin(s'.handlers[h])
    ensures s'.handlers == s.handlers[h := s'.handlers[h]]
    ensures s'.holders == s.holders[s.handlers[h].mutex.value := h]
    ensures forall k :: k in s'.dedup && k !in s.dedup ==>
              s.handlers[h].req.Send? && s.handlers[h].req.id != "" && k == Key(s.handlers[h].req)
  {
    var lock := Step(h, Ok);
    var s1 := Apply(s, lock);
    One(Next, s, lock);
    if s.handlers[h].req.Send? {
      s' := Apply(s1, lock);
      acts := [lock] + [lock];
      One(Next, s1, lock);
      Then(Next, s, [lock], s1, [lock]);
    } else {
      acts, s' := [lock], s1;
    }
  }

  lemma BothEnter(s: State, g: Hid, h: Hid) returns (acts: seq<Action>, s': State)
    requires g != h && MayEnter(s, g) && MayEnter(s, h) && !SameMessage(s.handlers[g].req, s.handlers[h].req)
    requires s.handlers[g].mutex != s.handlers[h].mutex
    ensures ExecFrom(s, acts) == Some(s') && g in s'.handlers && h in s'.handlers
    ensures UsesStdin(s'.handlers[g]) && UsesStdin(s'.handlers[h])
  {
    var first, s1 := Enters(s, g);
    var second;
    second, s' := Enters(s1, h);
    Then(Next, s, first, s1, second);
    acts := first + second;
  }

  ghost predicate CanOverlap(s: State, g: Hid, h: Hid) {
    exists acts, s' ::
      && ExecFrom(s, acts) == Some(s') && g in s'.handlers && h in s'.handlers
      && UsesStdin(s'.handlers[g]) && UsesStdin(s'.handlers[h])
  }

  /** Of two handlers of one session waiting for free mutexes with different messages, both can come
      to be at its stdin at once if and only if a DropSession came between their stdinLock calls. */
  lemma OverlapExactlyAcrossADrop(acts: seq<Action>, s: State, g: Hid, h: Hid)
    requires Reaches(acts, s) && g != h && MayEnter(s, g) && MayEnter(s, h)
    requires s.handlers[g].req.sid == s.handlers[h].req.sid
    requires !SameMessage(s.handlers[g].req, s.handlers[h].req)
    ensures CanOverlap(s, g, h) <==> s.handlers[g].era != s.handlers[h].era
  {
    SameMutexExactlyWithoutDrop(acts, s, g, h);
    if s.handlers[g].era != s.handlers[h].era {
      var more, s' := BothEnter(s, g, h);
    }
    if CanOverlap(s, g, h) {
      var more, s' :| ExecFrom(s, more) == Some(s') && g in s'.handlers && h in s'.handlers
                      && UsesStdin(s'.handlers[g]) && UsesStdin(s'.handlers[h]);
      InvFrom(Init(), acts, s);
      WhoStays(s, more, s', g);
      WhoStays(s, more, s', h);
      Then(Next, Init(), acts, s, more);
      OverlapMeansADropBetween(acts + more, s', g, h);
    }
  }
}
