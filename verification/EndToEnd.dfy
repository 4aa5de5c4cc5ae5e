/**
 Where the machines meet: the lifecycle provides the comings and goings the delivery machine
 assumes, and what the delivery machine writes is what the worker's inbox delivers.
 */
module EndToEnd {
  import opened Options
  import opened Runs
  import opened Frames
  import T = Tracking
  import L = Lifecycle
  import O = LifecycleOwnership
  import B = LifecycleBacking
  import D = Delivery
  import P = DeliveryProofs
  import E = Epochs
  import Q = EpochQueue

  // ---------------------------------------------------------------- lifecycle and delivery

  ghost function EnvNext(e: D.Env, step: D.EnvStep): Option<D.Env> {
    if D.EnvEnabled(e, step) then Some(D.EnvNext(e, step)) else None
  }

  ghost function EnvRun(steps: seq<D.EnvStep>): Option<D.Env> {
    After(EnvNext, D.Env(map[], {}, map[]), steps)
  }

  predicate PastDropSession(l: L.LifeRec) {
    l.sup.ExitKeys? || l.sup.ExitToken? || l.sup.Releasing? || l.sup.Finished?
  }

  predicate PreAdmission(pc: L.StartPc) {
    pc.CapacityCheck? || pc.ConflictCheck? || pc.Mkdir? || pc.WriteResume? || pc.RegisterLlm?
    || pc.AddKeys? || pc.Pull? || pc.Create? || pc.Attach? || pc.Admission?
  }

  /** The environment sees the lifecycle's tracker and the exits that have dropped their mutex. */
  ghost predicate Shows(e: D.Env, s: L.State) {
    && e.tracked.Keys == s.sh.tracker.byKey.Keys
    && (forall sid :: sid in e.tracked ==> e.tracked[sid] == s.sh.tracker.byKey[sid].containerId)
    && (forall h :: h in e.dropped <==> h in s.lives && PastDropSession(s.lives[h]))
    && (forall h :: h in e.known ==> h in s.lives && !PreAdmission(s.lives[h].pc))
  }

  /** Of all a life's steps, these are the ones the environment sees. */
  function Visible(l: L.LifeRec, l': L.LifeRec, h: L.Life, e: L.Effect): Option<D.EnvStep> {
    match e
    case AdmitRun => Some(D.Admit(l.req.sid, h))
    case DropRun => Some(D.Untrack(l.req.sid))
    case _ => if !PastDropSession(l) && PastDropSession(l') then Some(D.Drop(l.req.sid)) else None
  }

  /** What the environment sees of a step of the lifecycle. */
  ghost function ShownBy(s: L.State, a: L.Action): Option<D.EnvStep>
    requires L.Enabled(s, a)
  {
    match a
    case Handler(h, ok) =>
      var next := L.HandlerNext(s.lives[h], L.Look(s, h, s.lives[h].req.sid), ok);
      Visible(s.lives[h], next.0, h, next.1)
    case Supervisor(h, alt) =>
      var next := L.SupervisorNext(s.lives[h], alt);
      Visible(s.lives[h], next.0, h, next.1)
    case _ => None
  }

  function Move(e: D.Env, step: Option<D.EnvStep>): D.Env
    requires step.Some? ==> D.EnvEnabled(e, step.value)
  {
    if step.Some? then D.EnvNext(e, step.value) else e
  }

  /** A life's own step, as far as the environment is concerned. */
  ghost predicate Orderly(l: L.LifeRec, l': L.LifeRec, e: L.Effect) {
    && l'.req == l.req
    && (e.AdmitRun? ==> PreAdmission(l.pc))
    && (PreAdmission(l'.pc) ==> PreAdmission(l.pc))
    && (e.AdmitRun? ==> !PreAdmission(l'.pc))
    && (PastDropSession(l) ==> PastDropSession(l'))
    && (e.AdmitRun? || e.DropRun? ==> PastDropSession(l') == PastDropSession(l))
    && (!PastDropSession(l) && PastDropSession(l') ==> L.Owns(l))
  }

  lemma HandlerIsOrderly(l: L.LifeRec, seen: L.Seen, ok: bool)
    requires O.Coherent(l) && l.pc != L.Returned
    ensures var (l', e) := L.HandlerNext(l, seen, ok); Orderly(l, l', e)
  {
  }

  lemma SupervisorIsOrderly(l: L.LifeRec, alt: bool)
    requires O.Coherent(l) && L.Supervised(l.sup)
    ensures var (l', e) := L.SupervisorNext(l, alt); Orderly(l, l', e)
  {
  }

  lemma AdmissionShows(s: L.State, h: L.Life, l': L.LifeRec, e: D.Env)
    requires Shows(e, s) && h in s.lives && Orderly(s.lives[h], l', L.AdmitRun)
    requires T.CanAdmit(s.sh.tracker, s.max, T.Run(h, l'.req.sid))
    ensures var v := D.Admit(l'.req.sid, h);
            D.EnvEnabled(e, v) && Shows(D.EnvNext(e, v), L.Commit(s, h, (l', L.AdmitRun)))
  {
    assert l'.req.sid !in e.tracked.Keys;
  }

  lemma RemovalShows(s: L.State, h: L.Life, l': L.LifeRec, e: D.Env)
    requires Shows(e, s) && h in s.lives && Orderly(s.lives[h], l', L.DropRun)
    requires l'.req.sid in s.sh.tracker.byKey
    ensures var v := D.Untrack(l'.req.sid);
            D.EnvEnabled(e, v) && Shows(D.EnvNext(e, v), L.Commit(s, h, (l', L.DropRun)))
  {
    assert l'.req.sid in e.tracked.Keys;
    var e', s' := D.EnvNext(e, D.Untrack(l'.req.sid)), L.Commit(s, h, (l', L.DropRun));
    assert e'.tracked.Keys == e.tracked.Keys - {l'.req.sid};
    assert s'.sh.tracker.byKey.Keys == s.sh.tracker.byKey.Keys - {l'.req.sid};
  }

  lemma OtherStepShows(s: L.State, s': L.State, h: L.Life, e: D.Env)
    requires Shows(e, s) && h in s.lives && h in s'.lives && s'.lives == s.lives[h := s'.lives[h]]
    requires Orderly(s.lives[h], s'.lives[h], L.Nothing) && s'.sh.tracker.byKey == s.sh.tracker.byKey
    requires L.Owns(s.lives[h]) ==> s.lives[h].req.sid in s.sh.tracker.byKey
                                    && s.sh.tracker.byKey[s.lives[h].req.sid].containerId == h
    ensures var v := Visible(s.lives[h], s'.lives[h], h, L.Nothing);
            (v.Some? ==> D.EnvEnabled(e, v.value)) && Shows(Move(e, v), s')
  {
    if L.Owns(s.lives[h]) { assert s.lives[h].req.sid in e.tracked.Keys; }
  }

  lemma CommitIsVisible(s: L.State, h: L.Life, next: (L.LifeRec, L.Effect), e: D.Env)
    requires O.OwnerIsTracked(s) && Shows(e, s) && h in s.lives
    requires Orderly(s.lives[h], next.0, next.1) && O.OwnsAccordingly(s.lives[h], next.0, next.1)
    requires next.1.AdmitRun? ==> T.CanAdmit(s.sh.tracker, s.max, T.Run(h, next.0.req.sid))
    ensures var v := Visible(s.lives[h], next.0, h, next.1);
            (v.Some? ==> D.EnvEnabled(e, v.value)) && Shows(Move(e, v), L.Commit(s, h, next))
  {
    OwnersShow(s, h);
    if next.1.AdmitRun? { AdmissionShows(s, h, next.0, e); }
    else if next.1.DropRun? {
      assert next == (next.0, L.DropRun);
      RemovalShows(s, h, next.0, e);
    }
    else { OtherCommitShows(s, h, next, e); }
  }

  lemma OwnersShow(s: L.State, h: L.Life)
    requires O.OwnerIsTracked(s) && h in s.lives
    ensures L.Owns(s.lives[h]) ==> s.lives[h].req.sid in s.sh.tracker.byKey
                                   && s.sh.tracker.byKey[s.lives[h].req.sid].containerId == h
  {
  }

  lemma OtherCommitShows(s: L.State, h: L.Life, next: (L.LifeRec, L.Effect), e: D.Env)
    requires Shows(e, s) && h in s.lives && Orderly(s.lives[h], next.0, next.1)
    requires !next.1.AdmitRun? && !next.1.DropRun?
    requires L.Owns(s.lives[h]) ==> s.lives[h].req.sid in s.sh.tracker.byKey
                                    && s.sh.tracker.byKey[s.lives[h].req.sid].containerId == h
    ensures var v := Visible(s.lives[h], next.0, h, next.1);
            (v.Some? ==> D.EnvEnabled(e, v.value)) && Shows(Move(e, v), L.Commit(s, h, next))
  {
    O.OtherEffectsKeepTheTracker(s.sh, s.max, h, next.0.req.sid, next.1);
    OtherStepShows(s, L.Commit(s, h, next), h, e);
  }

  /** The step shows nothing of itself. */
  lemma InvisibleStep(s: L.State, s': L.State, e: D.Env)
    requires Shows(e, s) && s'.sh.tracker.byKey == s.sh.tracker.byKey
    requires forall h :: h in s'.lives ==>
               if h in s.lives then s'.lives[h].sup == s.lives[h].sup && s'.lives[h].pc == s.lives[h].pc
               else !PastDropSession(s'.lives[h])
    requires s.lives.Keys <= s'.lives.Keys
    ensures Shows(e, s')
  {
  }

  lemma OthersAreInvisible(s: L.State, a: L.Action)
    requires L.Enabled(s, a) && !a.Handler? && !a.Supervisor?
    ensures var s' := L.Apply(s, a);
            && s'.sh.tracker.byKey == s.sh.tracker.byKey && s.lives.Keys <= s'.lives.Keys
            && forall h :: h in s'.lives ==>
                 if h in s.lives then s'.lives[h].sup == s.lives[h].sup && s'.lives[h].pc == s.lives[h].pc
                 else !PastDropSession(s'.lives[h])
  {
    O.OthersTrackTheSame(s, a);
  }

  lemma HandlerIsVisible(s: L.State, h: L.Life, ok: bool, e: D.Env)
    requires O.AllCoherent(s) && O.OwnerIsTracked(s) && Shows(e, s)
    requires h in s.lives && s.lives[h].pc != L.Returned
    ensures var next := L.HandlerNext(s.lives[h], L.Look(s, h, s.lives[h].req.sid), ok);
            var v := Visible(s.lives[h], next.0, h, next.1);
            (v.Some? ==> D.EnvEnabled(e, v.value)) && Shows(Move(e, v), L.HandlerStep(s, h, ok))
  {
    var l, seen := s.lives[h], L.Look(s, h, s.lives[h].req.sid);
    var next := L.HandlerNext(l, seen, ok);
    assert O.Coherent(l);
    HandlerIsOrderly(l, seen, ok);
    O.HandlerNextIsCoherent(l, seen, ok);
    CommitIsVisible(s, h, next, e);
  }

  lemma SupervisorIsVisible(s: L.State, h: L.Life, alt: bool, e: D.Env)
    requires O.AllCoherent(s) && O.OwnerIsTracked(s) && Shows(e, s)
    requires h in s.lives && L.Supervised(s.lives[h].sup)
    requires s.lives[h].sup == L.Draining ==> alt || s.lives[h].pump == L.PumpDone
    ensures var next := L.SupervisorNext(s.lives[h], alt);
            var v := Visible(s.lives[h], next.0, h, next.1);
            (v.Some? ==> D.EnvEnabled(e, v.value)) && Shows(Move(e, v), L.SupervisorStep(s, h, alt))
  {
    var l := s.lives[h];
    var next := L.SupervisorNext(l, alt);
    assert O.Coherent(l);
    SupervisorIsOrderly(l, alt);
    O.SupervisorNextIsCoherent(l, alt);
    var v := Visible(l, next.0, h, next.1);
    CommitIsVisible(s, h, next, e);
    B.LabellingIsQuiet(s, h, alt);
    SameShown(L.Commit(s, h, next), L.SupervisorStep(s, h, alt), Move(e, v));
  }

  lemma StepIsVisible(s: L.State, a: L.Action, e: D.Env)
    requires O.AllCoherent(s) && O.OwnerIsTracked(s) && L.Enabled(s, a) && Shows(e, s)
    ensures var v := ShownBy(s, a);
            (v.Some? ==> D.EnvEnabled(e, v.value)) && Shows(Move(e, v), L.Apply(s, a))
  {
    match a
    case Handler(h, ok) => HandlerIsVisible(s, h, ok, e);
    case Supervisor(h, alt) => SupervisorIsVisible(s, h, alt, e);
    case _ =>
      OthersAreInvisible(s, a);
      InvisibleStep(s, L.Apply(s, a), e);
  }

  lemma SameShown(s: L.State, s': L.State, e: D.Env)
    requires Shows(e, s) && s'.lives == s.lives && s'.sh == s.sh
    ensures Shows(e, s')
  {
  }

  /** Every run of the host lifecycle, overlapping starts included, is a run of the environment the
      delivery machine works in, with the same tracker and the same exits. */
  lemma {:induction false} LifecycleIsADeliveryEnvironment(c: L.Config, acts: seq<L.Action>, s: L.State)
    returns (steps: seq<D.EnvStep>)
    requires L.Reaches(c, acts, s)
    ensures EnvRun(steps).Some? && Shows(EnvRun(steps).value, s)
  {
    if acts == [] {
      steps := [];
    } else {
      var before, a := L.LastStep(c, acts, s);
      steps := LifecycleIsADeliveryEnvironment(c, acts[..|acts| - 1], before);
      O.OwnershipAlways(c, acts[..|acts| - 1], before);
      StepIsVisible(before, a, EnvRun(steps).value);
      var v := ShownBy(before, a);
      if v.Some? {
        Then(EnvNext, D.Env(map[], {}, map[]), steps, EnvRun(steps).value, [v.value]);
        One(EnvNext, EnvRun(steps).value, v.value);
        steps := steps + [v.value];
      }
    }
  }

  // ---------------------------------------------------------------- delivery and inbox

  /** What a run's stdin carries, in the order it was written. */
  function FramesTo(ws: seq<D.Written>, run: D.Rid): seq<Frame> {
    if ws == [] then [] else
    FramesTo(ws[..|ws| - 1], run) + if ws[|ws| - 1].run == run then [ws[|ws| - 1].frame] else []
  }

  /** The positions of the user messages among them. */
  function UserWrites(ws: seq<D.Written>, run: D.Rid): seq<nat> {
    if ws == [] then [] else
    var n := |ws| - 1;
    UserWrites(ws[..n], run) + if ws[n].run == run && ws[n].frame.UserMessage? then [n] else []
  }

  function MessageAt(w: D.Written): Message
    requires w.frame.UserMessage?
  {
    Message(w.frame.id, w.frame.content)
  }

  ghost predicate UserWriteAt(ws: seq<D.Written>, run: D.Rid, p: nat) {
    p < |ws| && ws[p].run == run && ws[p].frame.UserMessage?
  }

  lemma {:induction false} UserWritesInOrder(ws: seq<D.Written>, run: D.Rid)
    ensures forall k :: 0 <= k < |UserWrites(ws, run)| ==> UserWriteAt(ws, run, UserWrites(ws, run)[k])
    ensures forall k, l :: 0 <= k < l < |UserWrites(ws, run)| ==> UserWrites(ws, run)[k] < UserWrites(ws, run)[l]
  {
    if ws != [] {
      var n := |ws| - 1;
      UserWritesInOrder(ws[..n], run);
      var earlier := UserWrites(ws[..n], run);
      assert forall k :: 0 <= k < |earlier| ==> UserWriteAt(ws[..n], run, earlier[k]);
    }
  }

  lemma {:induction false} UsersAreUserWrites(ws: seq<D.Written>, run: D.Rid)
    ensures |Users(FramesTo(ws, run))| == |UserWrites(ws, run)|
    ensures forall k :: 0 <= k < |UserWrites(ws, run)| ==>
              UserWriteAt(ws, run, UserWrites(ws, run)[k])
              && Users(FramesTo(ws, run))[k] == MessageAt(ws[UserWrites(ws, run)[k]])
  {
    if ws != [] {
      var n := |ws| - 1;
      var last := if ws[n].run == run then [ws[n].frame] else [];
      UsersAreUserWrites(ws[..n], run);
      UserWritesInOrder(ws, run);
      UsersAppend(FramesTo(ws[..n], run), last);
      UsersOfOne(last);
      var earlier := UserWrites(ws[..n], run);
      assert forall k :: 0 <= k < |earlier| ==> UserWriteAt(ws[..n], run, earlier[k]);
    }
  }

  lemma UsersOfOne(fs: seq<Frame>)
    requires |fs| <= 1
    ensures Users(fs) == if fs != [] && fs[0].UserMessage? then [Message(fs[0].id, fs[0].content)] else []
  {
    if fs != [] { assert fs[..0] == []; }
  }

  lemma UsersOfPrefix(fs: seq<Frame>, all: seq<Frame>)
    requires fs <= all
    ensures Users(fs) <= Users(all)
  {
    assert all == fs + all[|fs|..];
    UsersAppend(fs, all[|fs|..]);
  }

  ghost predicate DeliveredFrom(d: D.State, run: D.Rid, e: E.State, i: int, p: nat) {
    && 0 <= i < |e.h.delivered| && UserWriteAt(d.writes, run, p)
    && e.h.delivered[i].item.msg == MessageAt(d.writes[p])
    && e.h.delivered[i].item.index < |UserWrites(d.writes, run)|
    && p == UserWrites(d.writes, run)[e.h.delivered[i].item.index]
  }

  /** The worker of a run reads some prefix of what the host has written to it. */
  ghost predicate Connected(d: D.State, run: D.Rid, e: E.State) {
    e.h.frames <= FramesTo(d.writes, run)
  }

  lemma DeliveredWasWritten(d: D.State, run: D.Rid, e: E.State, i: nat) returns (p: nat)
    requires Q.QueueInv(e) && Connected(d, run, e) && i < |e.h.delivered|
    ensures DeliveredFrom(d, run, e, i, p)
  {
    UsersAreUserWrites(d.writes, run);
    UsersOfPrefix(e.h.frames, FramesTo(d.writes, run));
    var k := e.h.delivered[i].item.index;
    p := UserWrites(d.writes, run)[k];
    assert Q.MessagesOf(e.h.pushed)[k] == Users(e.h.frames)[k] == Users(FramesTo(d.writes, run))[k];
  }

  lemma SameRunSameSession(d: D.State, p: nat, q: nat)
    requires P.MutexInv(d) && P.ReplyInv(d) && p < |d.writes| && q < |d.writes| && d.writes[p].run == d.writes[q].run
    ensures d.writes[p].sid == d.writes[q].sid
  {
    assert P.IsWriteOf(d, p, d.writes[p].sender) && P.IsWriteOf(d, q, d.writes[q].sender);
    assert P.HandlerFits(d, d.handlers[d.writes[p].sender]) && P.HandlerFits(d, d.handlers[d.writes[q].sender]);
    assert P.Accepted(d.handlers[d.writes[p].sender]) && P.Accepted(d.handlers[d.writes[q].sender]);
    AcceptedHasRun(d, d.writes[p].sender);
    AcceptedHasRun(d, d.writes[q].sender);
  }

  lemma AcceptedHasRun(d: D.State, h: D.Hid)
    requires P.MutexInv(d) && h in d.handlers && P.Accepted(d.handlers[h])
    ensures d.handlers[h].run in d.env.known && d.env.known[d.handlers[h].run] == d.handlers[h].req.sid
  {
    assert P.HandlerFits(d, d.handlers[h]);
  }

  /** From HTTP to the model: every message the model gets is the ID and content of the request of
      exactly one handler, which wrote it and answers 202; "/clear" is never one of them. */
  lemma ModelSeesOnlyAcknowledgedMessages(
      dacts: seq<D.Action>, d: D.State, run: D.Rid,
      history: seq<string>, primer: string, eacts: seq<E.Action>, e: E.State, i: nat)
    returns (p: nat)
    requires D.Reaches(dacts, d) && E.Reaches(history, primer, eacts, e) && Connected(d, run, e)
    requires i < |e.h.delivered|
    ensures DeliveredFrom(d, run, e, i, p) && P.IsWriteOf(d, p, d.writes[p].sender)
    ensures forall o :: 0 <= o < |d.writes| && o != p ==> d.writes[o].sender != d.writes[p].sender
    ensures var (msg, req) := (e.h.delivered[i].item.msg, d.handlers[d.writes[p].sender].req);
            req.Send? && msg.id == req.id && msg.content == req.content && req.content != "/clear"
  {
    P.InvFrom(D.Init(), dacts, d);
    Q.QueueInvFrom(E.Init(history, primer), eacts, e);
    p := DeliveredWasWritten(d, run, e, i);
    P.WritesCarryTheirRequests(dacts, d, p);
    SoleWriteOfItsSender(d, p);
  }

  lemma SoleWriteOfItsSender(d: D.State, p: nat)
    requires P.AcceptedIsWritten(d) && P.WritesAreUnique(d) && p < |d.writes|
    ensures P.IsWriteOf(d, p, d.writes[p].sender)
    ensures forall o :: 0 <= o < |d.writes| && o != p ==> d.writes[o].sender != d.writes[p].sender
  {
  }

  /** It gets them in the order their writes took the stdin lock, and no message ID twice. */
  lemma ModelSeesAcknowledgedMessagesOnceInOrder(
      dacts: seq<D.Action>, d: D.State, run: D.Rid,
      history: seq<string>, primer: string, eacts: seq<E.Action>, e: E.State, i: nat, j: nat)
    returns (p: nat, q: nat)
    requires D.Reaches(dacts, d) && E.Reaches(history, primer, eacts, e) && Connected(d, run, e)
    requires i < j < |e.h.delivered|
    ensures DeliveredFrom(d, run, e, i, p) && DeliveredFrom(d, run, e, j, q) && p < q
    ensures P.IsWriteOf(d, p, d.writes[p].sender) && P.IsWriteOf(d, q, d.writes[q].sender)
    ensures d.writes[p].sender != d.writes[q].sender
    ensures e.h.delivered[i].item.msg.id != "" ==> e.h.delivered[i].item.msg.id != e.h.delivered[j].item.msg.id
  {
    p := ModelSeesOnlyAcknowledgedMessages(dacts, d, run, history, primer, eacts, e, i);
    q := ModelSeesOnlyAcknowledgedMessages(dacts, d, run, history, primer, eacts, e, j);
    Q.MessagesAreConserved(history, primer, eacts, e);
    LaterDeliveryLaterWrite(d, run, e, i, j, p, q);
    P.InvFrom(D.Init(), dacts, d);
    OneRunDifferentIds(d, p, q);
  }

  lemma LaterDeliveryLaterWrite(d: D.State, run: D.Rid, e: E.State, i: nat, j: nat, p: nat, q: nat)
    requires i < j < |e.h.delivered| && e.h.delivered[i].item.index < e.h.delivered[j].item.index
    requires DeliveredFrom(d, run, e, i, p) && DeliveredFrom(d, run, e, j, q)
    ensures p < q
  {
    UserWritesInOrder(d.writes, run);
  }

  lemma OneRunDifferentIds(d: D.State, p: nat, q: nat)
    requires P.MutexInv(d) && P.ReplyInv(d) && p < q < |d.writes| && d.writes[p].run == d.writes[q].run
    ensures d.writes[p].sender != d.writes[q].sender
    ensures d.writes[p].id != "" ==> d.writes[p].id != d.writes[q].id
    ensures d.writes[p].frame.UserMessage? ==> d.writes[p].frame.id == d.writes[p].id
    ensures d.writes[q].frame.UserMessage? ==> d.writes[q].frame.id == d.writes[q].id
  {
    SameRunSameSession(d, p, q);
    assert P.IsWriteOf(d, p, d.writes[p].sender) && P.IsWriteOf(d, q, d.writes[q].sender);
  }
}
