/**
 The message handlers' own code (handleMessage and handleChatEnd in internal/webhook/chat.go,
 stdinLock and DropSession in internal/webhook/handler.go), run with nobody else at work, and the
 Delivery machine's steps, taken in a row, against it.
 */
module Messages {
  import opened Options
  import opened Frames
  import opened Delivery

  // ---------------------------------------------------------------- the handlers

  class MessageServer {
    var tracked: map<Sid, Rid>
    var stdinMu: map<Sid, Mutex>
    var nextMutex: Mutex
    var locked: set<Mutex>
    var dedup: set<(Sid, string)>
    var writes: seq<Written>
    /** Runs whose stdin has been closed, and the sessions executor.Stop was called for. */
    var closed: set<Rid>
    var stopped: seq<Sid>

    ghost predicate Valid()
      reads this
    {
      && locked == {}
      && (forall sid :: (sid, "") !in dedup)
      && (forall sid :: sid in stdinMu ==> stdinMu[sid] < nextMutex)
    }

    constructor ()
      ensures Valid() && writes == [] && dedup == {} && stdinMu == map[] && closed == {} && stopped == []
    {
      closed, stopped := {}, [];
      tracked, stdinMu, nextMutex, locked, dedup, writes := map[], map[], 0, {}, {}, [];
    }

    /** One mutex per session as long as DropSession does not take it away; a new one is nobody's. */
    method StdinLock(sid: Sid) returns (m: Mutex)
      requires Valid()
      modifies this`stdinMu, this`nextMutex
      ensures Valid()
      ensures stdinMu == old(stdinMu)[sid := m]
      ensures if sid in old(stdinMu) then m == old(stdinMu)[sid]
              else forall other :: other in old(stdinMu) ==> old(stdinMu)[other] != m
    {
      if sid !in stdinMu {
        stdinMu := stdinMu[sid := nextMutex];
        nextMutex := nextMutex + 1;
      }
      m := stdinMu[sid];
    }

    method DropSession(sid: Sid)
      requires Valid()
      modifies this`stdinMu
      ensures Valid() && stdinMu == old(stdinMu) - {sid}
    {
      stdinMu := stdinMu - {sid};
    }

    /** CheckAndRecord: an empty ID is never a duplicate and never recorded. */
    method CheckAndRecord(sid: Sid, id: string) returns (duplicate: bool)
      modifies this`dedup
      ensures duplicate == (id != "" && (sid, id) in old(dedup))
      ensures dedup == if id == "" then old(dedup) else old(dedup) + {(sid, id)}
    {
      if id == "" { return false; }
      duplicate := (sid, id) in dedup;
      dedup := dedup + {(sid, id)};
    }

    /** handleMessage. A message that is not written leaves no trace in the dedup cache, so that a
        retry is a first try. */
    method HandleMessage(h: Hid, req: Request, result: WriteResult) returns (code: nat)
      requires Valid() && req.Send?
      modifies this`stdinMu, this`nextMutex, this`locked, this`dedup, this`writes
      ensures Valid()
      ensures code == MessageCode(req, req.sid in tracked, Key(req) in old(dedup), result)
      ensures code == 404 <==> req.sid !in tracked
      ensures code == 200 <==> req.sid in tracked && req.id != "" && (req.sid, req.id) in old(dedup)
      ensures code !in {200, 404} ==> code == if result == Ok then 202 else if result == TooLarge then 413 else 500
      ensures code == 202 ==>
                && writes == old(writes) + [Written(h, tracked[req.sid], req.sid, req.id,
                     if req.content == "/clear" then Clear else UserMessage(req.id, req.content))]
                && dedup == if req.id == "" then old(dedup) else old(dedup) + {(req.sid, req.id)}
      ensures code != 202 ==> writes == old(writes) && dedup == old(dedup)
      ensures forall sid :: sid in old(stdinMu) ==> sid in stdinMu && stdinMu[sid] == old(stdinMu)[sid]
    {
      if req.sid !in tracked { return 404; }
      var run := tracked[req.sid];
      var m := StdinLock(req.sid);
      locked := locked + {m};
      var duplicate := CheckAndRecord(req.sid, req.id);
      if duplicate {
        locked := locked - {m};
        return 200;
      }
      if result != Ok {
        dedup := dedup - {Key(req)};
        locked := locked - {m};
        return if result == TooLarge then 413 else 500;
      }
      writes := writes + [Written(h, run, req.sid, req.id, FrameOf(req))];
      locked := locked - {m};
      code := 202;
    }

    /** Run.Stdin.Close, which the single-writer contract wants done under the session's mutex. */
    method CloseStdin(run: Rid, m: Mutex, closes: bool)
      requires m in locked
      modifies this`closed
      ensures closed == if closes then old(closed) + {run} else old(closed)
    {
      if closes { closed := closed + {run}; }
    }

    /** handleChatEnd: an untracked session is left alone; a tracked one has its run's stdin closed
        and its container stopped, whether or not the close succeeds. */
    method HandleChatEnd(req: Request, closes: bool) returns (code: nat)
      requires Valid() && req.End?
      modifies this`stdinMu, this`nextMutex, this`locked, this`closed, this`stopped
      ensures Valid() && code == if req.sid in tracked then 202 else 200
      ensures closed == if code == 202 && closes then old(closed) + {tracked[req.sid]} else old(closed)
      ensures stopped == if code == 202 then old(stopped) + [req.sid] else old(stopped)
      ensures forall sid :: sid in old(stdinMu) ==> sid in stdinMu && stdinMu[sid] == old(stdinMu)[sid]
    {
      if req.sid !in tracked { return 200; }
      var run := tracked[req.sid];
      var m := StdinLock(req.sid);
      locked := locked + {m};
      CloseStdin(run, m, closes);
      locked := locked - {m};
      stopped := stopped + [req.sid];
      code := 202;
    }
  }

  function MessageCode(req: Request, tracked: bool, recorded: bool, result: WriteResult): nat
    requires req.Send?
  {
    if !tracked then 404
    else if req.id != "" && recorded then 200
    else match result case Ok => 202 case TooLarge => 413 case Failed => 500
  }

  // ---------------------------------------------------------------- the machine's steps in a row

  ghost predicate IsStep(s: State, h: Hid, s': State) {
    exists result :: Enabled(s, Step(h, result)) && s' == HandlerStep(s, h, result)
  }

  ghost predicate IsRow(s: State, h: Hid, row: seq<State>) {
    |row| > 0 && row[0] == s && forall i :: 0 <= i < |row| - 1 ==> IsStep(row[i], h, row[i + 1])
  }

  ghost function EndOf(s: State, h: Hid, row: seq<State>): Option<State> {
    if IsRow(s, h, row) then Some(row[|row| - 1]) else None
  }

  /** Nothing happens from `s` to `t` but steps of one handler. */
  ghost predicate Leads(s: State, h: Hid, row: seq<State>, t: State) {
    EndOf(s, h, row) == Some(t)
  }

  lemma TakeStep(s: State, h: Hid, row: seq<State>, t: State, result: WriteResult) returns (more: seq<State>)
    requires Leads(s, h, row, t) && Enabled(t, Step(h, result))
    ensures Leads(s, h, more, HandlerStep(t, h, result))
  {
    more := row + [HandlerStep(t, h, result)];
    assert IsStep(t, h, more[|row|]);
  }

  ghost predicate Unlocked(s: State, sid: Sid) {
    && s.nextMutex !in s.holders
    && (sid in s.mutexes ==> s.mutexes[sid] !in s.holders)
  }

  /** Where a message handler of a tracked session is when it has the lock. */
  function Inside(s: State, h: Hid, req: Request): State
    requires req.sid in s.env.tracked
  {
    var m := if req.sid in s.mutexes then s.mutexes[req.sid] else s.nextMutex;
    var r := Handler(req, CheckDedup, s.env.tracked[req.sid], Some(m), EraOf(s, req.sid));
    s.(handlers := s.handlers[h := r], holders := s.holders[m := h], mutexes := s.mutexes[req.sid := m],
       nextMutex := if req.sid in s.mutexes then s.nextMutex else s.nextMutex + 1)
  }

  lemma GetsInside(s: State, h: Hid, req: Request) returns (row: seq<State>)
    requires h in s.handlers && s.handlers[h] == Handler(req, Lookup, 0, None, 0) && req.Send?
    requires req.sid in s.env.tracked && Unlocked(s, req.sid)
    ensures Leads(s, h, row, Inside(s, h, req))
  {
    row := TakeStep(s, h, [s], s, Ok);
    var s1 := HandlerStep(s, h, Ok);
    row := TakeStep(s, h, row, s1, Ok);
    var s2 := HandlerStep(s1, h, Ok);
    row := TakeStep(s, h, row, s2, Ok);
    var s3 := HandlerStep(s2, h, Ok);
    assert s3.handlers == Inside(s, h, req).handlers;
  }

  lemma Unlocks(s: State, h: Hid, row: seq<State>, t: State) returns (more: seq<State>, t': State)
    requires Leads(s, h, row, t) && h in t.handlers && t.handlers[h].pc.Unlock?
    ensures Leads(s, h, more, t')
    ensures t' == t.(handlers := t.handlers[h := t.handlers[h].(pc := Replied(t.handlers[h].pc.code))],
                     holders := t.holders - {MutexOf(t.handlers[h])})
  {
    more := TakeStep(s, h, row, t, Ok);
    t' := HandlerStep(t, h, Ok);
  }

  /** Past the check: the write, and the rollback if it fails. */
  lemma TriesWrite(s: State, h: Hid, row: seq<State>, t: State, result: WriteResult)
    returns (more: seq<State>, t': State)
    requires Leads(s, h, row, t) && h in t.handlers && t.handlers[h].pc == Writing && t.handlers[h].req.Send?
    ensures Leads(s, h, more, t')
    ensures var (r, req) := (t.handlers[h], t.handlers[h].req);
            if result == Ok
            then t' == t.(handlers := t.handlers[h := r.(pc := Unlock(202))],
                          writes := t.writes + [Written(h, r.run, req.sid, req.id, FrameOf(req))])
            else t' == t.(handlers := t.handlers[h := r.(pc := Unlock(if result == TooLarge then 413 else 500))],
                          dedup := t.dedup - {Key(req)})
  {
    more := TakeStep(s, h, row, t, result);
    t' := HandlerStep(t, h, result);
    if result != Ok {
      var r := t'.handlers[h];
      more := TakeStep(s, h, more, t', Ok);
      t' := HandlerStep(t', h, Ok);
      assert t'.handlers == t.handlers[h := t'.handlers[h]];
    }
  }

  /** From inside the lock to Unlock. */
  lemma Writes(s: State, h: Hid, row: seq<State>, t: State, result: WriteResult) returns (more: seq<State>, t': State)
    requires Leads(s, h, row, t) && h in t.handlers && t.handlers[h].pc == CheckDedup && t.handlers[h].req.Send?
    requires forall sid :: (sid, "") !in t.dedup
    ensures var (r, req) := (t.handlers[h], t.handlers[h].req);
            var code := MessageCode(req, true, Key(req) in t.dedup, result);
            && Leads(s, h, more, t')
            && t' == t.(handlers := t.handlers[h := r.(pc := Unlock(code))],
                        dedup := if code == 202 && req.id != "" then t.dedup + {Key(req)} else t.dedup,
                        writes := if code == 202 then t.writes + [Written(h, r.run, req.sid, req.id, FrameOf(req))]
                                  else t.writes)
  {
    var r, req := t.handlers[h], t.handlers[h].req;
    more := TakeStep(s, h, row, t, Ok);
    t' := HandlerStep(t, h, Ok);
    if req.id == "" || Key(req) !in t.dedup {
      assert t'.handlers == t.handlers[h := r.(pc := Writing)];
      var recorded := t';
      more, t' := TriesWrite(s, h, more, recorded, result);
      assert recorded.dedup - {Key(req)} == t.dedup;
      assert t'.handlers == t.handlers[h := t'.handlers[h]];
    }
  }

  /** A message nobody interferes with: the machine answers what handleMessage answers, writes what
      it writes and records what it records. */
  lemma DeliversAlike(s: State, h: Hid, req: Request, result: WriteResult) returns (row: seq<State>, t: State)
    requires h in s.handlers && s.handlers[h] == Handler(req, Lookup, 0, None, 0) && req.Send?
    requires Unlocked(s, req.sid) && forall sid :: (sid, "") !in s.dedup
    ensures Leads(s, h, row, t) && h in t.handlers
    ensures var code := MessageCode(req, req.sid in s.env.tracked, Key(req) in s.dedup, result);
            && t.handlers[h].pc == Replied(code) && t.holders == s.holders && t.env == s.env
            && t.dedup == (if code == 202 && req.id != "" then s.dedup + {Key(req)} else s.dedup)
            && t.writes == if code == 202
                           then s.writes + [Written(h, s.env.tracked[req.sid], req.sid, req.id,
                                  if req.content == "/clear" then Clear else UserMessage(req.id, req.content))]
                           else s.writes
  {
    if req.sid !in s.env.tracked {
      row := TakeStep(s, h, [s], s, Ok);
      t := HandlerStep(s, h, Ok);
    } else {
      row := GetsInside(s, h, req);
      var inside := Inside(s, h, req);
      row, t := Writes(s, h, row, inside, result);
      var m := MutexOf(inside.handlers[h]);
      row, t := Unlocks(s, h, row, t);
      assert s.holders[m := h] - {m} == s.holders;
    }
  }

  lemma GetsInsideEnd(s: State, h: Hid, req: Request) returns (row: seq<State>, t: State)
    requires h in s.handlers && s.handlers[h] == Handler(req, Lookup, 0, None, 0) && req.End?
    requires req.sid in s.env.tracked && Unlocked(s, req.sid)
    ensures Leads(s, h, row, t) && h in t.handlers && t.handlers[h].req == req && t.handlers[h].pc == Closing
    ensures MutexOf(t.handlers[h]) !in s.holders && t.holders == s.holders[MutexOf(t.handlers[h]) := h]
    ensures t.env == s.env && t.dedup == s.dedup && t.writes == s.writes
  {
    row := TakeStep(s, h, [s], s, Ok);
    var s1 := HandlerStep(s, h, Ok);
    row := TakeStep(s, h, row, s1, Ok);
    var s2 := HandlerStep(s1, h, Ok);
    row := TakeStep(s, h, row, s2, Ok);
    t := HandlerStep(s2, h, Ok);
  }

  /** An end nobody interferes with. */
  lemma EndsAlike(s: State, h: Hid, req: Request) returns (row: seq<State>, t: State)
    requires h in s.handlers && s.handlers[h] == Handler(req, Lookup, 0, None, 0) && req.End?
    requires Unlocked(s, req.sid)
    ensures Leads(s, h, row, t) && h in t.handlers
    ensures t.handlers[h].pc == Replied(if req.sid in s.env.tracked then 202 else 200)
    ensures t.holders == s.holders && t.env == s.env && t.dedup == s.dedup && t.writes == s.writes
  {
    if req.sid in s.env.tracked {
      row, t := GetsInsideEnd(s, h, req);
      var m := MutexOf(t.handlers[h]);
      row := TakeStep(s, h, row, t, Ok);
      t := HandlerStep(t, h, Ok);
      row, t := Unlocks(s, h, row, t);
      assert s.holders[m := h] - {m} == s.holders;
    } else {
      row := TakeStep(s, h, [s], s, Ok);
      t := HandlerStep(s, h, Ok);
    }
  }
}
