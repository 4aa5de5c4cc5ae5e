/** Single writer and at-most-once delivery, over every run of the delivery machine. */
module DeliveryProofs {
  import opened Options
  import opened Delivery

  // ---------------------------------------------------------------- runs and mutexes

  ghost predicate EnvFits(e: Env) {
    && (forall sid :: sid in e.tracked ==> e.tracked[sid] in e.known && e.known[e.tracked[sid]] == sid)
    && (forall r :: r in e.dropped ==> r in e.known)
  }

  /** What one handler holds, against the shared state. */
  ghost predicate HandlerFits(s: State, r: Handler) {
    && (r.pc.Lookup? || r.pc.NeedMutex? ==> r.mutex == None)
    && (r.pc.WantLock? || Critical(r) || r.pc == Replied(202) ==> r.mutex.Some?)
    && (r.pc.NeedMutex? || r.mutex.Some? ==> r.run in s.env.known && s.env.known[r.run] == r.req.sid)
    && (r.pc.CheckDedup? || r.pc.Writing? || r.pc.Undo? ==> r.req.Send?)
    && (r.pc.Closing? ==> r.req.End?)
    && (r.pc.Undo? ==> r.pc.code in {413, 500})
    && (r.mutex.Some? ==> MutexFits(s, r))
  }

  /** A mutex is the map's current one as long as no DropSession has come, which for a run that is
      tracked and not yet dropped is always. */
  ghost predicate MutexFits(s: State, r: Handler)
    requires r.mutex.Some?
  {
    && r.mutex.value < s.nextMutex
    && r.era <= EraOf(s, r.req.sid)
    && (r.era == EraOf(s, r.req.sid) ==> r.req.sid in s.mutexes && s.mutexes[r.req.sid] == r.mutex.value)
    && (Live(s.env, r.req.sid, r.run) ==> r.era == EraOf(s, r.req.sid))
  }

  ghost predicate SameEraSameMutex(s: State) {
    forall g, h :: (g in s.handlers && h in s.handlers && s.handlers[g].mutex.Some? && s.handlers[h].mutex.Some?
                    && s.handlers[g].req.sid == s.handlers[h].req.sid && s.handlers[g].era == s.handlers[h].era)
      ==> s.handlers[g].mutex == s.handlers[h].mutex
  }

  ghost predicate LocksFit(s: State) {
    && (forall h :: h in s.handlers && Critical(s.handlers[h]) ==>
          MutexOf(s.handlers[h]) in s.holders && s.holders[MutexOf(s.handlers[h])] == h)
    && (forall m :: m in s.holders ==>
          s.holders[m] in s.handlers && Critical(s.handlers[s.holders[m]]) && MutexOf(s.handlers[s.holders[m]]) == m)
  }

  ghost predicate MutexInv(s: State) {
    && EnvFits(s.env)
    && (forall sid :: sid in s.mutexes ==> s.mutexes[sid] < s.nextMutex)
    && (forall h :: h in s.handlers ==> HandlerFits(s, s.handlers[h]))
    && SameEraSameMutex(s)
    && LocksFit(s)
  }

  /** A step that changes one handler, not its mutex, and no mutex in the map. */
  lemma HandlerChangeKeepsMutexInv(s: State, s': State, h: Hid)
    requires MutexInv(s) && h in s'.handlers && s'.handlers == s.handlers[h := s'.handlers[h]]
    requires s'.env == s.env && s'.mutexes == s.mutexes && s'.nextMutex == s.nextMutex && s'.eras == s.eras
    requires if h in s.handlers
             then s'.handlers[h].req == s.handlers[h].req && s'.handlers[h].mutex == s.handlers[h].mutex
                  && s'.handlers[h].era == s.handlers[h].era
             else s'.handlers[h].mutex == None
    requires HandlerFits(s', s'.handlers[h]) && LocksFit(s')
    ensures MutexInv(s')
  {
    forall g | g in s'.handlers ensures HandlerFits(s', s'.handlers[g]) {
      if g != h { assert HandlerFits(s, s.handlers[g]); }
    }
  }

  lemma TakeMutexKeepsMutexInv(s: State, h: Hid)
    requires MutexInv(s) && h in s.handlers && s.handlers[h].pc == NeedMutex
    ensures MutexInv(TakeMutex(s, h, s.handlers[h]))
  {
    var s', sid := TakeMutex(s, h, s.handlers[h]), s.handlers[h].req.sid;
    assert HandlerFits(s, s.handlers[h]);
    forall g | g in s'.handlers ensures HandlerFits(s', s'.handlers[g]) {
      if g != h { assert HandlerFits(s, s.handlers[g]); }
    }
    forall g | g in s.handlers && g != h && s.handlers[g].mutex.Some?
               && s.handlers[g].req.sid == sid && s.handlers[g].era == EraOf(s, sid)
      ensures s'.handlers[g].mutex == s'.handlers[h].mutex
    {
      assert HandlerFits(s, s.handlers[g]);
    }
  }

  lemma LockKeepsLocks(s: State, h: Hid)
    requires LocksFit(s) && h in s.handlers && s.handlers[h].pc == WantLock && MutexOf(s.handlers[h]) !in s.holders
    ensures LocksFit(HandlerStep(s, h, Ok))
  {
  }

  lemma UnlockKeepsLocks(s: State, h: Hid)
    requires LocksFit(s) && h in s.handlers && s.handlers[h].pc.Unlock?
    ensures LocksFit(HandlerStep(s, h, Ok))
  {
  }

  lemma InsideStep(s: State, h: Hid, result: WriteResult)
    requires h in s.handlers
    requires s.handlers[h].pc != NeedMutex && s.handlers[h].pc != WantLock && !s.handlers[h].pc.Unlock?
    ensures var s' := HandlerStep(s, h, result);
            && s'.holders == s.holders && h in s'.handlers && s'.handlers == s.handlers[h := s'.handlers[h]]
            && s'.handlers[h].mutex == s.handlers[h].mutex
            && (Critical(s'.handlers[h]) <==> Critical(s.handlers[h]))
  {
    StepLocal(s, h, result);
    InsideHolds(s, h, result);
  }

  lemma InsideHolds(s: State, h: Hid, result: WriteResult)
    requires h in s.handlers && s.handlers[h].pc != WantLock && !s.handlers[h].pc.Unlock?
    ensures HandlerStep(s, h, result).holders == s.holders
  {
  }

  lemma StepKeepsLocks(s: State, h: Hid, result: WriteResult)
    requires LocksFit(s) && Enabled(s, Step(h, result)) && s.handlers[h].pc != NeedMutex
    ensures LocksFit(HandlerStep(s, h, result))
  {
    if s.handlers[h].pc == WantLock { LockKeepsLocks(s, h); }
    else if s.handlers[h].pc.Unlock? { UnlockKeepsLocks(s, h); }
    else {
      InsideStep(s, h, result);
      StillKeepsLocks(s, HandlerStep(s, h, result), h);
    }
  }

  lemma StillKeepsLocks(s: State, s': State, h: Hid)
    requires LocksFit(s) && h in s.handlers && h in s'.handlers && s'.handlers == s.handlers[h := s'.handlers[h]]
    requires s'.holders == s.holders && s'.handlers[h].mutex == s.handlers[h].mutex
    requires Critical(s'.handlers[h]) <==> Critical(s.handlers[h])
    ensures LocksFit(s')
  {
  }

  lemma StepLocal(s: State, h: Hid, result: WriteResult)
    requires h in s.handlers && s.handlers[h].pc != NeedMutex
    ensures var s' := HandlerStep(s, h, result);
            && h in s'.handlers && s'.handlers == s.handlers[h := s'.handlers[h]]
            && s'.env == s.env && s'.mutexes == s.mutexes && s'.nextMutex == s.nextMutex && s'.eras == s.eras
            && s'.handlers[h].req == s.handlers[h].req && s'.handlers[h].mutex == s.handlers[h].mutex
            && s'.handlers[h].era == s.handlers[h].era
            && (s.handlers[h].pc != Lookup ==> s'.handlers[h].run == s.handlers[h].run)
  {
    StepKeepsShared(s, h, result);
  }

  lemma StepKeepsShared(s: State, h: Hid, result: WriteResult)
    requires h in s.handlers && s.handlers[h].pc != NeedMutex
    ensures var s' := HandlerStep(s, h, result);
            s'.env == s.env && s'.mutexes == s.mutexes && s'.nextMutex == s.nextMutex && s'.eras == s.eras
  {
  }

  lemma LookupFits(s: State, h: Hid)
    requires h in s.handlers && s.handlers[h].pc == Lookup && HandlerFits(s, s.handlers[h]) && EnvFits(s.env)
    ensures HandlerFits(HandlerStep(s, h, Ok), HandlerStep(s, h, Ok).handlers[h])
  {
  }

  /** Past the lookup a step only moves the program counter. */
  lemma LaterStepFits(s: State, h: Hid, result: WriteResult)
    requires h in s.handlers && s.handlers[h].pc != NeedMutex && s.handlers[h].pc != Lookup
    requires HandlerFits(s, s.handlers[h])
    ensures HandlerFits(s, HandlerStep(s, h, result).handlers[h])
  {
  }

  lemma FitsElsewhere(s: State, s': State, r: Handler)
    requires HandlerFits(s, r) && s'.env == s.env && s'.mutexes == s.mutexes
    requires s'.nextMutex == s.nextMutex && s'.eras == s.eras
    ensures HandlerFits(s', r)
  {
  }

  lemma HandlerStepFits(s: State, h: Hid, result: WriteResult)
    requires h in s.handlers && s.handlers[h].pc != NeedMutex && HandlerFits(s, s.handlers[h]) && EnvFits(s.env)
    ensures HandlerFits(HandlerStep(s, h, result), HandlerStep(s, h, result).handlers[h])
  {
    if s.handlers[h].pc == Lookup {
      LookupFits(s, h);
    } else {
      LaterStepFits(s, h, result);
      StepLocal(s, h, result);
      FitsElsewhere(s, HandlerStep(s, h, result), HandlerStep(s, h, result).handlers[h]);
    }
  }

  lemma LifecycleKeepsMutexInv(s: State, e: EnvStep)
    requires MutexInv(s) && EnvEnabled(s.env, e)
    ensures MutexInv(LifecycleStep(s, e))
  {
    var s' := LifecycleStep(s, e);
    forall h | h in s'.handlers ensures HandlerFits(s', s'.handlers[h]) {
      assert HandlerFits(s, s.handlers[h]);
    }
  }

  lemma StepKeepsMutexInv(s: State, a: Action)
    requires MutexInv(s) && Enabled(s, a)
    ensures MutexInv(Apply(s, a))
  {
    match a
    case Arrive(h, req) => HandlerChangeKeepsMutexInv(s, Apply(s, a), h);
    case Lifecycle(e) => LifecycleKeepsMutexInv(s, e);
    case Step(h, result) =>
      assert HandlerFits(s, s.handlers[h]);
      if s.handlers[h].pc == NeedMutex {
        TakeMutexKeepsMutexInv(s, h);
      } else {
        StepKeepsLocks(s, h, result);
        StepLocal(s, h, result);
        HandlerStepFits(s, h, result);
        HandlerChangeKeepsMutexInv(s, HandlerStep(s, h, result), h);
      }
  }

  // ---------------------------------------------------------------- records, writes and replies

  /** Every record is a write under way or a write done; no key has both, or two of either. */
  ghost predicate RecordsFit(s: State) {
    RecordersFit(s) && RecordersDiffer(s) && WritesAreRecorded(s) && RecordsAreBacked(s)
  }

  ghost predicate RecordersFit(s: State) {
    forall h :: h in s.handlers && Recording(s.handlers[h]) && s.handlers[h].req.id != "" ==>
      Key(s.handlers[h].req) in s.dedup && !WrittenKey(s, Key(s.handlers[h].req))
  }

  ghost predicate RecordersDiffer(s: State) {
    forall g, h :: (g in s.handlers && h in s.handlers && Recording(s.handlers[g]) && Recording(s.handlers[h])
                    && s.handlers[g].req.id != "" && Key(s.handlers[g].req) == Key(s.handlers[h].req)) ==> g == h
  }

  ghost predicate WritesAreRecorded(s: State) {
    forall i :: 0 <= i < |s.writes| && s.writes[i].id != "" ==> (s.writes[i].sid, s.writes[i].id) in s.dedup
  }

  ghost predicate RecordsAreBacked(s: State) {
    forall k :: k in s.dedup ==> k.1 != "" && (Pending(s, k) || WrittenKey(s, k))
  }

  ghost predicate Pending(s: State, k: (Sid, string)) {
    exists h :: IsRecorder(s, h, k)
  }

  ghost predicate IsRecorder(s: State, h: Hid, k: (Sid, string)) {
    h in s.handlers && Recording(s.handlers[h]) && Key(s.handlers[h].req) == k
  }

  ghost predicate WritesAreUnique(s: State) {
    forall i, j :: 0 <= i < j < |s.writes| ==>
      s.writes[i].sender != s.writes[j].sender
      && (s.writes[i].id != "" ==> (s.writes[i].sid, s.writes[i].id) != (s.writes[j].sid, s.writes[j].id))
  }

  predicate Accepted(r: Handler) {
    r.req.Send? && (r.pc == Unlock(202) || r.pc == Replied(202))
  }

  predicate Duplicate(r: Handler) {
    r.req.Send? && (r.pc == Unlock(200) || r.pc == Replied(200))
  }

  ghost predicate IsWriteOf(s: State, i: int, h: Hid) {
    && 0 <= i < |s.writes| && s.writes[i].sender == h
    && h in s.handlers && Accepted(s.handlers[h])
    && s.writes[i] == Written(h, s.handlers[h].run, s.handlers[h].req.sid, s.handlers[h].req.id,
                              FrameOf(s.handlers[h].req))
  }

  ghost predicate AcceptedIsWritten(s: State) {
    && (forall i :: 0 <= i < |s.writes| ==> IsWriteOf(s, i, s.writes[i].sender))
    && (forall h :: h in s.handlers && Accepted(s.handlers[h]) ==> exists i :: IsWriteOf(s, i, h))
  }

  /** `g` sent the same message and looked its mutex up on the other side of a DropSession. */
  ghost predicate Crossed(s: State, g: Hid, h: Hid) {
    && g in s.handlers && h in s.handlers && s.handlers[g].req.Send? && s.handlers[h].req.Send?
    && Key(s.handlers[g].req) == Key(s.handlers[h].req)
    && s.handlers[g].mutex.Some? && s.handlers[h].mutex.Some? && s.handlers[g].era != s.handlers[h].era
  }

  ghost predicate DuplicateTrue(s: State, h: Hid) {
    && h in s.handlers && s.handlers[h].req.Send? && s.handlers[h].req.id != ""
    && (WrittenKey(s, Key(s.handlers[h].req)) || exists g :: Crossed(s, g, h))
  }

  ghost predicate DuplicatesFit(s: State) {
    forall h :: h in s.handlers && Duplicate(s.handlers[h]) ==> DuplicateTrue(s, h)
  }

  ghost predicate ReplyInv(s: State) {
    RecordsFit(s) && WritesAreUnique(s) && AcceptedIsWritten(s) && DuplicatesFit(s)
  }

  // Steps that neither write nor record.

  ghost predicate OnlyHandler(s: State, s': State, h: Hid) {
    && h in s'.handlers && s'.handlers == s.handlers[h := s'.handlers[h]]
    && s'.dedup == s.dedup && s'.writes == s.writes
    && (h in s.handlers ==> s'.handlers[h].req == s.handlers[h].req
                            && (s.handlers[h].mutex.Some? ==>
                                  && s'.handlers[h].mutex.Some? && s'.handlers[h].era == s.handlers[h].era
                                  && s'.handlers[h].run == s.handlers[h].run))
  }

  lemma CrossingsStay(s: State, s': State, h: Hid)
    requires h in s'.handlers && s'.handlers == s.handlers[h := s'.handlers[h]]
    requires h in s.handlers ==> s'.handlers[h].req == s.handlers[h].req
                                 && (s.handlers[h].mutex.Some? ==>
                                       s'.handlers[h].mutex.Some? && s'.handlers[h].era == s.handlers[h].era)
    ensures forall f, g :: Crossed(s, f, g) ==> Crossed(s', f, g)
  {
  }

  lemma KeysStayWritten(s: State, s': State)
    requires s.writes <= s'.writes
    ensures forall k :: WrittenKey(s, k) ==> WrittenKey(s', k)
  {
    forall k | WrittenKey(s, k) ensures WrittenKey(s', k) {
      var i :| IsKey(s, i, k);
      assert IsKey(s', i, k);
    }
  }

  lemma QuietKeepsRecords(s: State, s': State, h: Hid)
    requires RecordsFit(s) && OnlyHandler(s, s', h)
    requires Recording(s'.handlers[h]) <==> h in s.handlers && Recording(s.handlers[h])
    ensures RecordsFit(s')
  {
    KeysStayWritten(s, s');
    KeysStayWritten(s', s);
    forall k | k in s'.dedup ensures Pending(s', k) || WrittenKey(s', k) {
      if Pending(s, k) {
        var g :| IsRecorder(s, g, k);
        assert IsRecorder(s', g, k);
      }
    }
  }

  lemma QuietKeepsReplies(s: State, s': State, h: Hid)
    requires AcceptedIsWritten(s) && DuplicatesFit(s) && OnlyHandler(s, s', h)
    requires Accepted(s'.handlers[h]) <==> h in s.handlers && Accepted(s.handlers[h])
    requires h in s.handlers && Accepted(s.handlers[h]) ==> s'.handlers[h].run == s.handlers[h].run
    requires Duplicate(s'.handlers[h]) ==> h in s.handlers && Duplicate(s.handlers[h])
    ensures AcceptedIsWritten(s') && DuplicatesFit(s')
  {
    CrossingsStay(s, s', h);
    KeysStayWritten(s, s');
    forall i | 0 <= i < |s'.writes| ensures IsWriteOf(s', i, s'.writes[i].sender) {
      assert IsWriteOf(s, i, s.writes[i].sender);
    }
    forall g | g in s'.handlers && Accepted(s'.handlers[g]) ensures exists i :: IsWriteOf(s', i, g) {
      var i :| IsWriteOf(s, i, g);
      assert IsWriteOf(s', i, g);
    }
    forall g | g in s'.handlers && Duplicate(s'.handlers[g]) ensures DuplicateTrue(s', g) {
      assert DuplicateTrue(s, g);
    }
  }

  lemma QuietKeepsReplyInv(s: State, s': State, h: Hid)
    requires ReplyInv(s) && OnlyHandler(s, s', h)
    requires Recording(s'.handlers[h]) <==> h in s.handlers && Recording(s.handlers[h])
    requires Accepted(s'.handlers[h]) <==> h in s.handlers && Accepted(s.handlers[h])
    requires h in s.handlers && Accepted(s.handlers[h]) ==> s'.handlers[h].run == s.handlers[h].run
    requires Duplicate(s'.handlers[h]) ==> h in s.handlers && Duplicate(s.handlers[h])
    ensures ReplyInv(s')
  {
    QuietKeepsRecords(s, s', h);
    QuietKeepsReplies(s, s', h);
  }

  // CheckDedup.

  lemma RecordKeepsReplyInv(s: State, h: Hid)
    requires ReplyInv(s) && h in s.handlers && s.handlers[h].pc == CheckDedup && s.handlers[h].req.Send?
    requires s.handlers[h].req.id == "" || Key(s.handlers[h].req) !in s.dedup
    ensures ReplyInv(HandlerStep(s, h, Ok))
  {
    var s', k := HandlerStep(s, h, Ok), Key(s.handlers[h].req);
    KeysStayWritten(s, s');
    KeysStayWritten(s', s);
    CrossingsStay(s, s', h);
    assert RecordsFit(s') by {
      if k.1 != "" {
        assert forall i :: IsKey(s, i, k) ==> k in s.dedup;
        assert IsRecorder(s', h, k);
      }
      forall k' | k' in s.dedup ensures Pending(s', k') || WrittenKey(s', k') {
        if Pending(s, k') {
          var g :| IsRecorder(s, g, k');
          assert IsRecorder(s', g, k');
        }
      }
    }
    QuietKeepsReplies(s, s'.(dedup := s.dedup), h);
  }

  /** The lock is held, so the record belongs to a write done, or to a handler with another mutex,
      which means one on the other side of a DropSession. */
  lemma DuplicateIsTrue(s: State, h: Hid)
    requires MutexInv(s) && RecordsFit(s)
    requires h in s.handlers && s.handlers[h].pc == CheckDedup && s.handlers[h].req.Send?
    requires s.handlers[h].req.id != "" && Key(s.handlers[h].req) in s.dedup
    ensures DuplicateTrue(s, h)
  {
    var k := Key(s.handlers[h].req);
    assert HandlerFits(s, s.handlers[h]);
    if !WrittenKey(s, k) {
      var g :| IsRecorder(s, g, k);
      assert HandlerFits(s, s.handlers[g]);
      assert Crossed(s, g, h);
    }
  }

  lemma DuplicateKeepsReplyInv(s: State, s': State, h: Hid)
    requires ReplyInv(s) && OnlyHandler(s, s', h) && h in s.handlers && DuplicateTrue(s, h)
    requires !Accepted(s.handlers[h]) && !Accepted(s'.handlers[h])
    requires !Recording(s.handlers[h]) && !Recording(s'.handlers[h])
    ensures ReplyInv(s')
  {
    CrossingsStay(s, s', h);
    KeysStayWritten(s, s');
    QuietKeepsRecords(s, s', h);
    AcceptedUnaffected(s, s', h);
    forall f | f in s'.handlers && Duplicate(s'.handlers[f]) ensures DuplicateTrue(s', f) {
      assert DuplicateTrue(s, f);
    }
  }

  lemma AcceptedUnaffected(s: State, s': State, h: Hid)
    requires AcceptedIsWritten(s) && OnlyHandler(s, s', h) && h in s.handlers
    requires !Accepted(s'.handlers[h]) && !Accepted(s.handlers[h])
    ensures AcceptedIsWritten(s')
  {
    forall i | 0 <= i < |s'.writes| ensures IsWriteOf(s', i, s'.writes[i].sender) {
      assert IsWriteOf(s, i, s.writes[i].sender);
    }
    forall g | g in s'.handlers && Accepted(s'.handlers[g]) ensures exists i :: IsWriteOf(s', i, g) {
      var i :| IsWriteOf(s, i, g);
      assert IsWriteOf(s', i, g);
    }
  }

  // The write and the rollback.

  lemma WriteKeepsReplyInv(s: State, h: Hid)
    requires ReplyInv(s) && h in s.handlers && s.handlers[h].pc == Writing && s.handlers[h].req.Send?
    ensures ReplyInv(HandlerStep(s, h, Ok))
  {
    var s' := HandlerStep(s, h, Ok);
    WriteKeepsRecords(s, h);
    WriteDoes(s, h);
    WriteKeepsUnique(s, s', h);
    WriteKeepsAccepted(s, s', h);
    KeysStayWritten(s, s');
    CrossingsStay(s, s', h);
    forall f | f in s'.handlers && Duplicate(s'.handlers[f]) ensures DuplicateTrue(s', f) {
      assert DuplicateTrue(s, f);
    }
  }

  ghost predicate Wrote(s: State, s': State, h: Hid) {
    && h in s.handlers && Recording(s.handlers[h]) && !Accepted(s.handlers[h])
    && h in s'.handlers && s'.handlers == s.handlers[h := s'.handlers[h]] && Accepted(s'.handlers[h])
    && s'.handlers[h].req == s.handlers[h].req
    && s'.writes == s.writes + [Written(h, s'.handlers[h].run, s.handlers[h].req.sid, s.handlers[h].req.id,
                                        FrameOf(s.handlers[h].req))]
  }

  lemma WriteDoes(s: State, h: Hid)
    requires h in s.handlers && s.handlers[h].pc == Writing && s.handlers[h].req.Send?
    ensures Wrote(s, HandlerStep(s, h, Ok), h)
    ensures h in HandlerStep(s, h, Ok).handlers && !Duplicate(HandlerStep(s, h, Ok).handlers[h])
  {
  }

  lemma WriteKeepsUnique(s: State, s': State, h: Hid)
    requires RecordersFit(s) && WritesAreUnique(s) && AcceptedIsWritten(s) && Wrote(s, s', h)
    ensures WritesAreUnique(s')
  {
    var k := Key(s.handlers[h].req);
    forall i | 0 <= i < |s.writes| ensures s.writes[i].sender != h {
      assert IsWriteOf(s, i, s.writes[i].sender);
    }
    forall i | 0 <= i < |s.writes| && s.writes[i].id != "" ensures (s.writes[i].sid, s.writes[i].id) != k {
      assert IsKey(s, i, (s.writes[i].sid, s.writes[i].id));
    }
  }

  lemma WriteKeepsAccepted(s: State, s': State, h: Hid)
    requires AcceptedIsWritten(s) && Wrote(s, s', h)
    ensures AcceptedIsWritten(s')
  {
    assert IsWriteOf(s', |s.writes|, h);
    forall i | 0 <= i < |s.writes| ensures IsWriteOf(s', i, s'.writes[i].sender) {
      assert IsWriteOf(s, i, s.writes[i].sender);
    }
    forall g | g in s'.handlers && Accepted(s'.handlers[g]) ensures exists i :: IsWriteOf(s', i, g) {
      if g != h {
        var i :| IsWriteOf(s, i, g);
        assert IsWriteOf(s', i, g);
      }
    }
  }

  lemma WriteKeepsRecords(s: State, h: Hid)
    requires RecordsFit(s) && h in s.handlers && s.handlers[h].pc == Writing && s.handlers[h].req.Send?
    ensures RecordsFit(HandlerStep(s, h, Ok))
  {
    var s', k, n := HandlerStep(s, h, Ok), Key(s.handlers[h].req), |s.writes|;
    KeysStayWritten(s, s');
    assert IsKey(s', n, k);
    forall g | g in s'.handlers && Recording(s'.handlers[g]) && s'.handlers[g].req.id != ""
      ensures !WrittenKey(s', Key(s'.handlers[g].req))
    {
      var k' := Key(s'.handlers[g].req);
      assert k' != k && !WrittenKey(s, k');
      assert forall i :: IsKey(s', i, k') ==> IsKey(s, i, k');
    }
    forall k' | k' in s'.dedup ensures Pending(s', k') || WrittenKey(s', k') {
      if Pending(s, k') && k' != k {
        var g :| IsRecorder(s, g, k');
        assert IsRecorder(s', g, k');
      }
    }
  }

  lemma UndoKeepsRecords(s: State, h: Hid)
    requires RecordsFit(s) && h in s.handlers && s.handlers[h].pc.Undo? && s.handlers[h].req.Send?
    ensures RecordsFit(HandlerStep(s, h, Ok))
  {
    var s' := HandlerStep(s, h, Ok);
    UndoDoes(s, h);
    KeysStayWritten(s, s');
    KeysStayWritten(s', s);
    UndoKeepsWritesRecorded(s, s', h);
    UndoKeepsBacking(s, s', h);
  }

  lemma UndoDoes(s: State, h: Hid)
    requires h in s.handlers && s.handlers[h].pc.Undo? && s.handlers[h].req.Send?
    ensures Undone(s, HandlerStep(s, h, Ok), h)
  {
  }

  ghost predicate Undone(s: State, s': State, h: Hid) {
    && h in s.handlers && Recording(s.handlers[h])
    && h in s'.handlers && s'.handlers == s.handlers[h := s'.handlers[h]] && s'.handlers[h].req == s.handlers[h].req
    && !Recording(s'.handlers[h])
    && s'.writes == s.writes && s'.dedup == s.dedup - {Key(s.handlers[h].req)}
  }

  lemma UndoKeepsWritesRecorded(s: State, s': State, h: Hid)
    requires RecordersFit(s) && WritesAreRecorded(s) && Undone(s, s', h)
    ensures WritesAreRecorded(s')
  {
    forall i | 0 <= i < |s.writes| && s.writes[i].id != "" ensures (s.writes[i].sid, s.writes[i].id) in s'.dedup {
      assert IsKey(s, i, (s.writes[i].sid, s.writes[i].id));
    }
  }

  lemma UndoKeepsBacking(s: State, s': State, h: Hid)
    requires RecordsAreBacked(s) && Undone(s, s', h)
    ensures RecordsAreBacked(s')
  {
    KeysStayWritten(s, s');
    forall k | k in s'.dedup ensures Pending(s', k) || WrittenKey(s', k) {
      if Pending(s, k) {
        var g :| IsRecorder(s, g, k);
        assert IsRecorder(s', g, k);
      }
    }
  }

  lemma UndoKeepsReplyInv(s: State, h: Hid)
    requires ReplyInv(s) && h in s.handlers && s.handlers[h].pc.Undo? && s.handlers[h].req.Send?
    requires s.handlers[h].pc.code in {413, 500}
    ensures ReplyInv(HandlerStep(s, h, Ok))
  {
    var s' := HandlerStep(s, h, Ok);
    UndoKeepsRecords(s, h);
    QuietKeepsReplies(s, s'.(dedup := s.dedup), h);
    SameReplies(s'.(dedup := s.dedup), s');
  }

  lemma SameReplies(s: State, s': State)
    requires AcceptedIsWritten(s) && DuplicatesFit(s) && s'.handlers == s.handlers && s'.writes == s.writes
    ensures AcceptedIsWritten(s') && DuplicatesFit(s')
  {
    KeysStayWritten(s, s');
    assert forall i, h :: IsWriteOf(s, i, h) <==> IsWriteOf(s', i, h);
    assert forall f, g :: Crossed(s, f, g) <==> Crossed(s', f, g);
    forall h | h in s'.handlers && Duplicate(s'.handlers[h]) ensures DuplicateTrue(s', h) {
      assert DuplicateTrue(s, h);
    }
  }

  lemma LifecycleKeepsReplyInv(s: State, e: EnvStep)
    requires ReplyInv(s) && EnvEnabled(s.env, e)
    ensures ReplyInv(LifecycleStep(s, e))
  {
    var s' := LifecycleStep(s, e);
    KeysStayWritten(s, s');
    KeysStayWritten(s', s);
    assert forall h, k :: IsRecorder(s, h, k) <==> IsRecorder(s', h, k);
    assert forall i, h :: IsWriteOf(s, i, h) <==> IsWriteOf(s', i, h);
    assert forall f, g :: Crossed(s, f, g) <==> Crossed(s', f, g);
    forall h | h in s'.handlers && Duplicate(s'.handlers[h]) ensures DuplicateTrue(s', h) {
      assert DuplicateTrue(s, h);
    }
  }

  lemma QuietHandlerStep(s: State, h: Hid, result: WriteResult)
    requires h in s.handlers && HandlerFits(s, s.handlers[h])
    requires s.handlers[h].pc != CheckDedup && !s.handlers[h].pc.Undo? && !(s.handlers[h].pc == Writing && result == Ok)
    ensures var s' := HandlerStep(s, h, result);
            && OnlyHandler(s, s', h)
            && (Recording(s'.handlers[h]) <==> Recording(s.handlers[h]))
            && (Accepted(s'.handlers[h]) <==> Accepted(s.handlers[h]))
            && (Accepted(s.handlers[h]) ==> s'.handlers[h].run == s.handlers[h].run)
            && (Duplicate(s'.handlers[h]) ==> Duplicate(s.handlers[h]))
  {
  }

  lemma DuplicateDoes(s: State, h: Hid)
    requires h in s.handlers && s.handlers[h].pc == CheckDedup && s.handlers[h].req.Send?
    requires s.handlers[h].req.id != "" && Key(s.handlers[h].req) in s.dedup
    ensures var s' := HandlerStep(s, h, Ok);
            && OnlyHandler(s, s', h) && !Accepted(s.handlers[h]) && !Accepted(s'.handlers[h])
            && !Recording(s.handlers[h]) && !Recording(s'.handlers[h])
  {
  }

  lemma DedupKeepsReplyInv(s: State, h: Hid)
    requires MutexInv(s) && ReplyInv(s) && h in s.handlers && s.handlers[h].pc == CheckDedup && s.handlers[h].req.Send?
    ensures ReplyInv(HandlerStep(s, h, Ok))
  {
    if s.handlers[h].req.id != "" && Key(s.handlers[h].req) in s.dedup {
      DuplicateIsTrue(s, h);
      DuplicateDoes(s, h);
      DuplicateKeepsReplyInv(s, HandlerStep(s, h, Ok), h);
    } else {
      RecordKeepsReplyInv(s, h);
    }
  }

  lemma HandlerKeepsReplyInv(s: State, h: Hid, result: WriteResult)
    requires MutexInv(s) && ReplyInv(s) && Enabled(s, Step(h, result))
    ensures ReplyInv(HandlerStep(s, h, result))
  {
    var r := s.handlers[h];
    assert HandlerFits(s, r);
    if r.pc == CheckDedup {
      DedupKeepsReplyInv(s, h);
    } else if r.pc == Writing && result == Ok {
      WriteKeepsReplyInv(s, h);
    } else if r.pc.Undo? {
      UndoKeepsReplyInv(s, h);
    } else {
      QuietHandlerStep(s, h, result);
      QuietKeepsReplyInv(s, HandlerStep(s, h, result), h);
    }
  }

  lemma StepKeepsReplyInv(s: State, a: Action)
    requires MutexInv(s) && ReplyInv(s) && Enabled(s, a)
    ensures ReplyInv(Apply(s, a))
  {
    match a
    case Arrive(h, req) => QuietKeepsReplyInv(s, Apply(s, a), h);
    case Lifecycle(e) => LifecycleKeepsReplyInv(s, e);
    case Step(h, result) => HandlerKeepsReplyInv(s, h, result);
  }

  // ---------------------------------------------------------------- every run

  lemma {:induction false} InvFrom(s: State, acts: seq<Action>, s': State)
    requires MutexInv(s) && ReplyInv(s) && ExecFrom(s, acts) == Some(s')
    ensures MutexInv(s') && ReplyInv(s')
    decreases |acts|
  {
    if acts != [] {
      StepKeepsMutexInv(s, acts[0]);
      StepKeepsReplyInv(s, acts[0]);
      InvFrom(Apply(s, acts[0]), acts[1..], s');
    }
  }

  /** Until the OnExit of a run reaches DropSession, all handlers of that run that have called
      stdinLock have one and the same mutex, so its stdin has one user at a time. */
  lemma LiveRunHasOneWriter(acts: seq<Action>, s: State, g: Hid, h: Hid)
    requires Reaches(acts, s) && g in s.handlers && h in s.handlers
    requires s.handlers[g].mutex.Some? && s.handlers[h].mutex.Some? && s.handlers[g].run == s.handlers[h].run
    requires Live(s.env, s.handlers[g].req.sid, s.handlers[g].run)
    ensures s.handlers[g].mutex == s.handlers[h].mutex
    ensures UsesStdin(s.handlers[g]) && UsesStdin(s.handlers[h]) ==> g == h
  {
    InvFrom(Init(), acts, s);
    assert HandlerFits(s, s.handlers[g]) && HandlerFits(s, s.handlers[h]);
  }

  /** No message ID is ever written twice for a session, whatever exits and reopenings come between. */
  lemma WrittenAtMostOnce(acts: seq<Action>, s: State, i: nat, j: nat)
    requires Reaches(acts, s) && i < j < |s.writes| && s.writes[i].id != ""
    ensures (s.writes[i].sid, s.writes[i].id) != (s.writes[j].sid, s.writes[j].id)
  {
    InvFrom(Init(), acts, s);
  }

  /** Every write carries its sender's request: a clear frame for "/clear" and for nothing else, the
      very ID and content otherwise. */
  lemma WritesCarryTheirRequests(acts: seq<Action>, s: State, i: nat)
    requires Reaches(acts, s) && i < |s.writes|
    ensures s.writes[i].sender in s.handlers && s.handlers[s.writes[i].sender].req.Send?
    ensures var (w, req) := (s.writes[i], s.handlers[s.writes[i].sender].req);
            && w.sid == req.sid && w.id == req.id
            && (w.frame.Clear? <==> req.content == "/clear")
            && (w.frame.UserMessage? ==> w.frame.id == req.id && w.frame.content == req.content)
  {
    InvFrom(Init(), acts, s);
    assert IsWriteOf(s, i, s.writes[i].sender);
  }

  /** 202 means this very handler wrote this very message, once; any other answer means it did not. */
  lemma AcceptedMeansWritten(acts: seq<Action>, s: State, h: Hid)
    requires Reaches(acts, s) && h in s.handlers && s.handlers[h].req.Send? && s.handlers[h].pc.Replied?
    ensures s.handlers[h].pc.code == 202 <==> exists i :: IsWriteOf(s, i, h)
    ensures forall i, j :: 0 <= i < j < |s.writes| ==> !(s.writes[i].sender == h && s.writes[j].sender == h)
  {
    InvFrom(Init(), acts, s);
  }

  /** A duplicate found under the lock has been written if and only if nobody has it recorded and
      not yet written or undone; and whoever does has its mutex from the other side of a
      DropSession. */
  lemma DuplicateIsSoundExactlyWhenNobodyIsWriting(acts: seq<Action>, s: State, h: Hid)
    requires Reaches(acts, s) && h in s.handlers && s.handlers[h].pc == CheckDedup
    requires s.handlers[h].req.Send? && s.handlers[h].req.id != "" && Key(s.handlers[h].req) in s.dedup
    ensures WrittenKey(s, Key(s.handlers[h].req)) <==> !Pending(s, Key(s.handlers[h].req))
    ensures forall g :: IsRecorder(s, g, Key(s.handlers[h].req)) ==> Crossed(s, g, h)
  {
    InvFrom(Init(), acts, s);
    var k := Key(s.handlers[h].req);
    assert HandlerFits(s, s.handlers[h]);
    forall g | IsRecorder(s, g, k) ensures Crossed(s, g, h) && !WrittenKey(s, k) {
      assert HandlerFits(s, s.handlers[g]);
    }
  }

  /** 200 on a message means the message has been written, as long as no DropSession of the session
      came between the stdinLock calls of the handlers that sent it. */
  lemma DuplicateMeansWritten(acts: seq<Action>, s: State, h: Hid)
    requires Reaches(acts, s) && h in s.handlers && s.handlers[h].req.Send? && s.handlers[h].pc == Replied(200)
    requires forall g :: !Crossed(s, g, h)
    ensures WrittenKey(s, Key(s.handlers[h].req))
  {
    InvFrom(Init(), acts, s);
    assert Duplicate(s.handlers[h]);
    assert DuplicateTrue(s, h);
  }
}
