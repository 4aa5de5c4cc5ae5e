/**
 The two places where a DropSession between two handlers shows: the deleted mutex no longer keeps
 them apart, on the run that is going away.
 */
module DeliveryOverlap {
  import opened Options
  import opened Runs
  import opened Delivery

  const FIRST := Send("s", "a", "x")
  const OTHER := Send("s", "b", "y")

  lemma Take(acts: seq<Action>, s: State, a: Action) returns (acts': seq<Action>, s': State)
    requires Reaches(acts, s) && Enabled(s, a)
    ensures Reaches(acts', s') && s' == Apply(s, a)
  {
    acts', s' := acts + [a], Apply(s, a);
    Then(Next, Init(), acts, s, [a]);
    One(Next, s, a);
  }

  /** A message handler up to its stdinLock: run 0 is tracked for "s". */
  lemma LookUp(acts: seq<Action>, s: State, h: Hid, req: Request) returns (acts': seq<Action>, s': State)
    requires Reaches(acts, s) && h !in s.handlers && req.sid == "s"
    requires "s" in s.env.tracked && s.env.tracked["s"] == 0
    ensures Reaches(acts', s') && s' == s.(handlers := s.handlers[h := Handler(req, NeedMutex, 0, None, 0)])
  {
    acts', s' := Take(acts, s, Arrive(h, req));
    acts', s' := Take(acts', s', Step(h, Ok));
  }

  lemma GetMutex(acts: seq<Action>, s: State, h: Hid, req: Request) returns (acts': seq<Action>, s': State)
    requires Reaches(acts, s) && h in s.handlers && s.handlers[h] == Handler(req, NeedMutex, 0, None, 0)
    requires req.sid == "s" && "s" !in s.mutexes
    ensures Reaches(acts', s')
    ensures s' == s.(handlers := s.handlers[h := Handler(req, WantLock, 0, Some(s.nextMutex), EraOf(s, "s"))],
                     mutexes := s.mutexes["s" := s.nextMutex], nextMutex := s.nextMutex + 1)
  {
    acts', s' := Take(acts, s, Step(h, Ok));
  }

  lemma LockAndCheck(acts: seq<Action>, s: State, h: Hid, r: Handler) returns (acts': seq<Action>, s': State)
    requires Reaches(acts, s) && h in s.handlers && s.handlers[h] == r
    requires r.pc == WantLock && r.req.Send? && r.req.id != "" && MutexOf(r) !in s.holders
    ensures Reaches(acts', s')
    ensures s' == s.(handlers := s.handlers[h := r.(pc := if Key(r.req) in s.dedup then Unlock(200) else Writing)],
                     holders := s.holders[MutexOf(r) := h],
                     dedup := if Key(r.req) in s.dedup then s.dedup else s.dedup + {Key(r.req)})
  {
    acts', s' := Take(acts, s, Step(h, Ok));
    acts', s' := Take(acts', s', Step(h, Ok));
  }

  lemma DropRun(acts: seq<Action>, s: State) returns (acts': seq<Action>, s': State)
    requires Reaches(acts, s) && "s" in s.env.tracked && s.env.tracked["s"] !in s.env.dropped
    ensures Reaches(acts', s')
    ensures s'.env == s.env.(dropped := s.env.dropped + {s.env.tracked["s"]})
    ensures s'.mutexes == s.mutexes - {"s"} && EraOf(s', "s") == EraOf(s, "s") + 1
    ensures s'.handlers == s.handlers && s'.nextMutex == s.nextMutex && s'.holders == s.holders
    ensures s'.dedup == s.dedup && s'.writes == s.writes
  {
    acts', s' := Take(acts, s, Lifecycle(Drop("s")));
  }

  lemma TrackedRun() returns (acts: seq<Action>, s: State)
    ensures Reaches(acts, s) && s == Init().(env := Env(map["s" := 0], {}, map[0 := "s"]))
  {
    assert Reaches([], Init());
    acts, s := Take([], Init(), Lifecycle(Admit("s", 0)));
  }

  /** Two handlers write to one run's stdin at the same time: one took the old mutex, the other the
      new one, while the run that is exiting is still in the tracker. */
  lemma WritersOverlapAfterDrop() returns (acts: seq<Action>, s: State)
    ensures Reaches(acts, s) && {0, 1} <= s.handlers.Keys
    ensures UsesStdin(s.handlers[0]) && UsesStdin(s.handlers[1]) && s.handlers[0].run == s.handlers[1].run
    ensures "s" in s.env.tracked && s.env.tracked["s"] == s.handlers[0].run
  {
    acts, s := TrackedRun();
    acts, s := LookUp(acts, s, 0, FIRST);
    acts, s := GetMutex(acts, s, 0, FIRST);
    acts, s := LockAndCheck(acts, s, 0, s.handlers[0]);
    acts, s := DropRun(acts, s);
    acts, s := LookUp(acts, s, 1, OTHER);
    acts, s := GetMutex(acts, s, 1, OTHER);
    acts, s := LockAndCheck(acts, s, 1, s.handlers[1]);
  }

  lemma FailAndUndo(acts: seq<Action>, s: State, h: Hid, r: Handler) returns (acts': seq<Action>, s': State)
    requires Reaches(acts, s) && h in s.handlers && s.handlers[h] == r && r.pc == Writing && r.req.Send?
    ensures Reaches(acts', s') && s'.writes == s.writes
    ensures s'.handlers == s.handlers[h := r.(pc := Replied(500))]
  {
    acts', s' := Take(acts, s, Step(h, Failed));
    acts', s' := Take(acts', s', Step(h, Ok));
    acts', s' := Take(acts', s', Step(h, Ok));
  }

  lemma ReplyDuplicate(acts: seq<Action>, s: State, h: Hid, r: Handler) returns (acts': seq<Action>, s': State)
    requires Reaches(acts, s) && h in s.handlers && s.handlers[h] == r && r.pc == Unlock(200)
    ensures Reaches(acts', s') && s'.writes == s.writes
    ensures s'.handlers == s.handlers[h := r.(pc := Replied(200))]
  {
    acts', s' := Take(acts, s, Step(h, Ok));
  }

  /** A 200 for a message that was never written. Both handlers lock after the DropSession: it is
      their stdinLock calls it came between, so it is those, not the Lock calls, that count. */
  lemma FalseDuplicateAcrossDrop() returns (acts: seq<Action>, s: State)
    ensures Reaches(acts, s) && {0, 1} <= s.handlers.Keys && s.writes == []
    ensures s.handlers[0].req == FIRST && s.handlers[0].pc == Replied(500)
    ensures s.handlers[1].req == FIRST && s.handlers[1].pc == Replied(200)
  {
    acts, s := TrackedRun();
    acts, s := LookUp(acts, s, 0, FIRST);
    acts, s := GetMutex(acts, s, 0, FIRST);
    acts, s := LookUp(acts, s, 1, FIRST);
    acts, s := DropRun(acts, s);
    acts, s := GetMutex(acts, s, 1, FIRST);
    acts, s := LockAndCheck(acts, s, 0, s.handlers[0]);
    acts, s := LockAndCheck(acts, s, 1, s.handlers[1]);
    acts, s := ReplyDuplicate(acts, s, 1, s.handlers[1]);
    acts, s := FailAndUndo(acts, s, 0, s.handlers[0]);
  }
}
