/**
 Reconnecting the MCP session (Bridge.callTool and Close in internal/mcpbridge/bridge.go), as a step
 machine over any number of concurrent tool calls. Sessions are numbered in the order they are
 dialled; session 0 is the one Connect dialled.
 */
module Bridge {
  import opened Options
  import opened Runs

  type Session = nat
  type Cid = nat

  datatype Pc =
    | ReadSession | FirstCall
    | WantLock | Compare | Dial | CloseOld(renewed: Session) | Install(renewed: Session) | Reread
    | Retry | Done(ok: bool)

  /** `sess` is the local variable; `failed` the session the first attempt found poisoned. */
  datatype Caller = Caller(pc: Pc, sess: Session, failed: Option<Session>, attempts: seq<Session>)

  datatype Replacement = Replacement(retired: Session, renewed: Session, caller: Cid)

  /** `dials`: the session each successful re-dial was made for; `closes`: the sessions closed on
      replacement; `swaps`: the replacements, in order. */
  datatype State = State(
    session: Session, next: Session, lock: Option<Cid>, callers: map<Cid, Caller>,
    sawPoisoned: set<(Cid, Session)>, dials: seq<Session>, closes: seq<Session>, swaps: seq<Replacement>,
    shutdown: set<Session>)

  function Init(): State {
    State(0, 1, None, map[], {}, [], [], [], {})
  }

  datatype Action =
    | Begin(c: Cid)
    | Step(c: Cid, good: bool)   // good: the call is not poisoned, or the dial succeeds
    | CloseBridge

  predicate Enabled(s: State, a: Action) {
    match a
    case Begin(c) => c !in s.callers
    case Step(c, _) =>
      && c in s.callers && !s.callers[c].pc.Done?
      && (s.callers[c].pc == ReadSession || s.callers[c].pc == WantLock ==> s.lock == None)
    case CloseBridge => s.lock == None
  }

  function Put(s: State, c: Cid, r: Caller): State {
    s.(callers := s.callers[c := r])
  }

  function CallerStep(s: State, c: Cid, good: bool): State
    requires c in s.callers
  {
    var r := s.callers[c];
    match r.pc
    case ReadSession => Put(s, c, r.(pc := FirstCall, sess := s.session))
    case FirstCall =>
      var r' := r.(attempts := r.attempts + [r.sess]);
      if good then Put(s, c, r'.(pc := Done(true)))
      else Put(s.(sawPoisoned := s.sawPoisoned + {(c, r.sess)}), c, r'.(pc := WantLock, failed := Some(r.sess)))
    case WantLock => Put(s.(lock := Some(c)), c, r.(pc := Compare))
    case Compare => Put(s, c, r.(pc := if s.session == r.sess then Dial else Reread))
    case Dial =>
      if good then Put(s.(next := s.next + 1, dials := s.dials + [r.sess]), c, r.(pc := CloseOld(s.next)))
      else Put(s.(lock := None), c, r.(pc := Done(false)))
    case CloseOld(renewed) => Put(s.(closes := s.closes + [r.sess]), c, r.(pc := Install(renewed)))
    case Install(renewed) =>
      Put(s.(session := renewed, swaps := s.swaps + [Replacement(r.sess, renewed, c)]), c, r.(pc := Reread))
    case Reread => Put(s.(lock := None), c, r.(pc := Retry, sess := s.session))
    case Retry => Put(s, c, r.(pc := Done(good), attempts := r.attempts + [r.sess]))
    case Done(_) => s
  }

  function Apply(s: State, a: Action): State
    requires Enabled(s, a)
  {
    match a
    case Begin(c) => Put(s, c, Caller(ReadSession, 0, None, []))
    case Step(c, good) => CallerStep(s, c, good)
    case CloseBridge => s.(shutdown := s.shutdown + {s.session})
  }

  function Next(s: State, a: Action): Option<State> {
    if Enabled(s, a) then Some(Apply(s, a)) else None
  }

  ghost function ExecFrom(s: State, acts: seq<Action>): Option<State> {
    After(Next, s, acts)
  }

  ghost predicate Reaches(acts: seq<Action>, s: State) {
    ExecFrom(Init(), acts) == Some(s)
  }

  // ---------------------------------------------------------------- the invariant

  predicate InLock(pc: Pc) {
    pc.Compare? || pc.Dial? || pc.CloseOld? || pc.Install? || pc.Reread?
  }

  ghost predicate LockFits(s: State) {
    forall c :: c in s.callers ==> (InLock(s.callers[c].pc) <==> s.lock == Some(c))
  }

  /** A caller past its first attempt has seen its own session fail; inside the lock it replaces
      exactly that one; when it retries, it is on another. */
  ghost predicate CallerFits(s: State, c: Cid, r: Caller) {
    && (r.failed.Some? ==> (c, r.failed.value) in s.sawPoisoned)
    && (match r.pc
        case ReadSession => r.attempts == []
        case FirstCall => r.attempts == [] && r.sess <= s.session
        case Retry => r.failed.Some? && r.attempts == [r.failed.value] && r.failed.value < r.sess
        case Done(_) =>
          && |r.attempts| <= 2
          && (|r.attempts| == 2 ==> r.failed == Some(r.attempts[0]) && r.attempts[0] < r.attempts[1])
        case _ => r.failed == Some(r.sess) && r.attempts == [r.sess] && r.sess <= s.session)
    && (r.pc.Dial? || r.pc.CloseOld? || r.pc.Install? ==> r.sess == s.session)
    && (r.pc.Reread? ==> r.sess < s.session)
    && (r.pc.CloseOld? || r.pc.Install? ==> r.pc.renewed == s.session + 1)
  }

  /** How far ahead of the last replacement the dials and closes are. */
  ghost predicate InFlight(s: State) {
    var dialled := s.lock.Some? && s.lock.value in s.callers
      && (s.callers[s.lock.value].pc.CloseOld? || s.callers[s.lock.value].pc.Install?);
    var closed := s.lock.Some? && s.lock.value in s.callers && s.callers[s.lock.value].pc.Install?;
    && s.next == s.session + 1 + (if dialled then 1 else 0)
    && |s.dials| == s.session + (if dialled then 1 else 0)
    && |s.closes| == s.session + (if closed then 1 else 0)
  }

  ghost predicate ChainFits(s: State) {
    && |s.swaps| == s.session
    && (forall i :: 0 <= i < |s.swaps| ==>
          && s.swaps[i].retired == i && s.swaps[i].renewed == i + 1
          && (s.swaps[i].caller, i) in s.sawPoisoned)
    && (forall i :: 0 <= i < |s.dials| ==> s.dials[i] == i)
    && (forall i :: 0 <= i < |s.closes| ==> s.closes[i] == i)
  }

  ghost predicate Inv(s: State) {
    && LockFits(s) && InFlight(s) && ChainFits(s)
    && (s.lock.Some? ==> s.lock.value in s.callers)
    && (forall c :: c in s.callers ==> CallerFits(s, c, s.callers[c]))
  }

  lemma OthersStillFit(s: State, s': State, c: Cid)
    requires forall d :: d in s.callers ==> CallerFits(s, d, s.callers[d])
    requires LockFits(s) && s.session <= s'.session && s.sawPoisoned <= s'.sawPoisoned
    requires s'.session == s.session || s.lock == Some(c)
    ensures forall d :: d in s.callers && d != c ==> CallerFits(s', d, s.callers[d])
  {
  }

  lemma CallerStepFits(s: State, c: Cid, good: bool)
    requires Inv(s) && Enabled(s, Step(c, good))
    ensures var s' := CallerStep(s, c, good);
            CallerFits(s', c, s'.callers[c]) && s.session <= s'.session && s.sawPoisoned <= s'.sawPoisoned
            && (s'.session == s.session || s.lock == Some(c))
            && s'.callers == s.callers[c := s'.callers[c]] && (s'.lock.Some? ==> s'.lock.value in s'.callers)
  {
    assert CallerFits(s, c, s.callers[c]);
  }

  lemma CallerStepKeepsLock(s: State, c: Cid, good: bool)
    requires LockFits(s) && Enabled(s, Step(c, good))
    ensures LockFits(CallerStep(s, c, good))
  {
  }

  lemma CallerStepKeepsInFlight(s: State, c: Cid, good: bool)
    requires LockFits(s) && InFlight(s) && Enabled(s, Step(c, good)) && CallerFits(s, c, s.callers[c])
    requires s.lock.Some? ==> s.lock.value in s.callers
    ensures InFlight(CallerStep(s, c, good))
  {
  }

  lemma CallerStepKeepsChain(s: State, c: Cid, good: bool)
    requires ChainFits(s) && InFlight(s) && LockFits(s) && Enabled(s, Step(c, good))
    requires CallerFits(s, c, s.callers[c])
    ensures ChainFits(CallerStep(s, c, good))
  {
  }

  lemma CallerStepKeepsInv(s: State, c: Cid, good: bool)
    requires Inv(s) && Enabled(s, Step(c, good))
    ensures Inv(CallerStep(s, c, good))
  {
    assert CallerFits(s, c, s.callers[c]);
    CallerStepFits(s, c, good);
    CallerStepKeepsLock(s, c, good);
    CallerStepKeepsInFlight(s, c, good);
    CallerStepKeepsChain(s, c, good);
    StillInv(s, CallerStep(s, c, good), c);
  }

  lemma StillInv(s: State, s': State, c: Cid)
    requires Inv(s) && c in s'.callers && s'.callers == s.callers[c := s'.callers[c]]
    requires CallerFits(s', c, s'.callers[c]) && LockFits(s') && InFlight(s') && ChainFits(s')
    requires s'.lock.Some? ==> s'.lock.value in s'.callers
    requires s.session <= s'.session && s.sawPoisoned <= s'.sawPoisoned
    requires s'.session == s.session || s.lock == Some(c)
    ensures Inv(s')
  {
    OthersStillFit(s, s', c);
  }

  lemma StepKeepsInv(s: State, a: Action)
    requires Inv(s) && Enabled(s, a)
    ensures Inv(Apply(s, a))
  {
    match a
    case Step(c, good) => CallerStepKeepsInv(s, c, good);
    case Begin(c) => StillInv(s, Apply(s, a), c);
    case CloseBridge =>
      var s' := Apply(s, a);
      forall d | d in s'.callers ensures CallerFits(s', d, s'.callers[d]) {
        assert CallerFits(s, d, s.callers[d]);
      }
  }

  lemma {:induction false} InvFrom(s: State, acts: seq<Action>, s': State)
    requires Inv(s) && ExecFrom(s, acts) == Some(s')
    ensures Inv(s')
    decreases |acts|
  {
    if acts != [] {
      StepKeepsInv(s, acts[0]);
      InvFrom(Apply(s, acts[0]), acts[1..], s');
    }
  }

  // ---------------------------------------------------------------- what it means

  /** Single flight, for any number of callers: every replacement is made by a caller that saw the
      very session it replaces fail as poisoned, no session is replaced, re-dialled for or closed
      twice, and the bridge is always on the newest installed session. */
  lemma ReconnectIsSingleFlight(acts: seq<Action>, s: State)
    requires Reaches(acts, s)
    ensures forall i :: 0 <= i < |s.swaps| ==> (s.swaps[i].caller, s.swaps[i].retired) in s.sawPoisoned
    ensures forall i, j :: 0 <= i < j < |s.swaps| ==>
              s.swaps[i].retired != s.swaps[j].retired && s.swaps[i].renewed != s.swaps[j].renewed
    ensures forall i, j :: 0 <= i < j < |s.dials| ==> s.dials[i] != s.dials[j]
    ensures forall i, j :: 0 <= i < j < |s.closes| ==> s.closes[i] != s.closes[j]
    ensures s.session == if s.swaps == [] then 0 else s.swaps[|s.swaps| - 1].renewed
  {
    InvFrom(Init(), acts, s);
  }

  /** A session no caller has ever found poisoned is never replaced, re-dialled for or closed on
      replacement. */
  lemma HealthySessionStays(acts: seq<Action>, s: State, sess: Session)
    requires Reaches(acts, s) && forall c :: (c, sess) !in s.sawPoisoned
    ensures forall i :: 0 <= i < |s.swaps| ==> s.swaps[i].retired != sess
    ensures sess !in s.dials && sess !in s.closes
  {
    InvFrom(Init(), acts, s);
    forall i | 0 <= i < |s.dials| ensures s.dials[i] != sess { var c := DialledWasSeenPoisoned(s, i); }
    assert |s.closes| <= |s.dials| && forall i :: 0 <= i < |s.closes| ==> s.closes[i] == s.dials[i];
  }

  lemma DialledWasSeenPoisoned(s: State, i: nat) returns (c: Cid)
    requires Inv(s) && i < |s.dials|
    ensures (c, s.dials[i]) in s.sawPoisoned
  {
    if i < |s.swaps| {
      c := s.swaps[i].caller;
    } else {
      c := s.lock.value;
      assert CallerFits(s, c, s.callers[c]);
    }
  }

  /** A call makes at most two attempts, the second never on the session that failed the first. */
  lemma AtMostTwoAttempts(acts: seq<Action>, s: State, c: Cid)
    requires Reaches(acts, s) && c in s.callers
    ensures |s.callers[c].attempts| <= 2
    ensures |s.callers[c].attempts| == 2 ==>
              (c, s.callers[c].attempts[0]) in s.sawPoisoned && s.callers[c].attempts[1] != s.callers[c].attempts[0]
  {
    InvFrom(Init(), acts, s);
    assert CallerFits(s, c, s.callers[c]);
  }

  // ---------------------------------------------------------------- one caller's own code

  class McpBridge {
    var session: Session
    var nextSession: Session
    var closed: seq<Session>

    constructor ()
      ensures session == 0 && nextSession == 1 && closed == []
    {
      session, nextSession, closed := 0, 1, [];
    }

    /** callTool between its two lock operations: only the session that failed is replaced, and
        whoever finds it replaced already goes on with the one in place. */
    method Reconnect(failed: Session, dials: bool) returns (ok: bool, sess: Session)
      modifies this
      ensures if old(session) != failed then ok && sess == old(session)
              else ok == dials && (ok ==> sess == old(nextSession))
      ensures if old(session) == failed && dials
              then session == old(nextSession) && nextSession == old(nextSession) + 1
                   && closed == old(closed) + [failed]
              else session == old(session) && nextSession == old(nextSession) && closed == old(closed)
    {
      if session == failed {
        if !dials { return false, failed; }
        var renewed := nextSession;
        nextSession := nextSession + 1;
        closed := closed + [failed];
        session := renewed;
      }
      ok, sess := true, session;
    }

    /** callTool with nobody else at work. */
    method CallTool(good: bool, dials: bool, retryGood: bool) returns (ok: bool, attempts: seq<Session>)
      modifies this
      ensures good ==> ok && attempts == [old(session)] && session == old(session) && closed == old(closed)
      ensures !good && !dials ==>
                !ok && attempts == [old(session)] && session == old(session) && closed == old(closed)
      ensures !good && dials ==>
                && ok == retryGood && attempts == [old(session), session]
                && session == old(nextSession) && closed == old(closed) + [old(session)]
    {
      var sess := session;
      attempts := [sess];
      if good { return true, attempts; }
      var renewed;
      ok, renewed := Reconnect(sess, dials);
      if !ok { return; }
      attempts := attempts + [renewed];
      ok := retryGood;
    }
  }

  lemma First(s: State, c: Cid, good: bool, rest: seq<Action>, t: State) returns (acts: seq<Action>)
    requires Enabled(s, Step(c, good)) && ExecFrom(CallerStep(s, c, good), rest) == Some(t)
    ensures ExecFrom(s, acts) == Some(t)
  {
    acts := [Step(c, good)] + rest;
    assert acts[1..] == rest;
  }

  /** The machine's locked section, taken in a row, does what Reconnect does. */
  lemma ReconnectsAlike(s: State, c: Cid, dials: bool) returns (acts: seq<Action>, t: State)
    requires s.lock == None && c in s.callers && s.callers[c].pc == WantLock
    ensures ExecFrom(s, acts) == Some(t) && t.lock == None && c in t.callers
    ensures var failed := s.callers[c].sess;
            if s.session == failed && dials
            then t.session == s.next && t.closes == s.closes + [failed]
                 && t.callers[c].pc == Retry && t.callers[c].sess == s.next
            else t.session == s.session && t.closes == s.closes
                 && if s.session == failed then t.callers[c].pc == Done(false)
                    else t.callers[c].pc == Retry && t.callers[c].sess == s.session
  {
    var s1 := CallerStep(s, c, dials);
    var s2 := CallerStep(s1, c, dials);
    var s3 := CallerStep(s2, c, dials);
    if s.session == s.callers[c].sess && dials {
      var s4 := CallerStep(s3, c, dials);
      var s5 := CallerStep(s4, c, dials);
      t := CallerStep(s5, c, dials);
      acts := First(s5, c, dials, [], t);
      acts := First(s4, c, dials, acts, t);
      acts := First(s3, c, dials, acts, t);
    } else {
      t, acts := s3, [];
    }
    acts := First(s2, c, dials, acts, t);
    acts := First(s1, c, dials, acts, t);
    acts := First(s, c, dials, acts, t);
  }
}
