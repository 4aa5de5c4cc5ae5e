/** Conservation, order and clear boundaries of the worker's message queue, over every run. */
module EpochQueue {
  import opened Options
  import opened Frames
  import opened Inbox
  import opened Epochs

  function ItemsOf(ds: seq<Delivery>): (r: seq<Item>)
    ensures |r| == |ds| && forall i :: 0 <= i < |ds| ==> r[i] == ds[i].item
  {
    seq(|ds|, i requires 0 <= i < |ds| => ds[i].item)
  }

  function MessagesOf(items: seq<Item>): (r: seq<Message>)
    ensures |r| == |items| && forall i :: 0 <= i < |items| ==> r[i] == items[i].msg
  {
    seq(|items|, i requires 0 <= i < |items| => items[i].msg)
  }

  // ---------------------------------------------------------------- the invariant

  function Gone(s: State): int {
    |s.h.pushed| - |s.box.pending|
  }

  /** What is pending is the tail of what was pushed, all of it since the last clear. */
  ghost predicate PendingIsTail(s: State) {
    && 0 <= Gone(s)
    && s.box.pending == s.h.pushed[Gone(s)..]
    && (forall i :: 0 <= i < |s.h.pushed| ==> s.h.pushed[i].index == i && s.h.pushed[i].gen <= |s.h.clearEpochs|)
    && (forall i :: Gone(s) <= i < |s.h.pushed| ==> s.h.pushed[i].gen == |s.h.clearEpochs|)
  }

  ghost predicate Partitioned(s: State) {
    multiset(ItemsOf(s.h.delivered)) + multiset(s.h.dropped) + multiset(s.box.pending) == multiset(s.h.pushed)
  }

  ghost predicate InOrder(s: State) {
    && (forall i :: 0 <= i < |s.h.delivered| ==>
          s.h.delivered[i].item.index < Gone(s) && s.h.pushed[s.h.delivered[i].item.index] == s.h.delivered[i].item)
    && (forall i, j :: 0 <= i < j < |s.h.delivered| ==>
          s.h.delivered[i].item.index < s.h.delivered[j].item.index)
  }

  /** A delivery belongs to the clears read so far, and to a later epoch than each of them. */
  ghost predicate WithinBoundaries(s: State) {
    && (forall i :: 0 <= i < |s.h.delivered| ==> Bounded(s.h.delivered[i], s.h.clearEpochs))
    && (forall i :: 0 <= i < |s.h.dropped| ==> s.h.dropped[i].gen < |s.h.clearEpochs|)
  }

  ghost predicate Bounded(d: Delivery, clearEpochs: seq<nat>) {
    && d.item.gen == d.clears <= |clearEpochs|
    && forall c :: 0 <= c < d.clears ==> clearEpochs[c] < d.epoch
  }

  ghost predicate FromFrames(s: State) {
    MessagesOf(s.h.pushed) == Users(s.h.frames) && |s.h.clearEpochs| == Clears(s.h.frames)
  }

  /** Once a clear has been read in an epoch, that epoch's consumer is held off for good. */
  ghost predicate ClearedEpochIsHeld(s: State) {
    && (forall c :: 0 <= c < |s.h.clearEpochs| ==> s.h.clearEpochs[c] <= s.loop.epoch)
    && (forall c :: 0 <= c < |s.h.clearEpochs| && s.h.clearEpochs[c] == s.loop.epoch ==>
          s.box.held || s.loop.pc.ReleasePing? || s.loop.pc.DrainingStale? || s.loop.pc.Exited?)
    && (s.consumer != Idle ==> s.loop.pc == Running)
  }

  ghost predicate QueueInv(s: State) {
    && PendingIsTail(s) && Partitioned(s) && InOrder(s) && WithinBoundaries(s)
    && FromFrames(s) && ClearedEpochIsHeld(s)
  }

  // ---------------------------------------------------------------- steps that move messages

  lemma PushKeepsTail(s: State, s': State, item: Item)
    requires PendingIsTail(s) && s'.h.pushed == s.h.pushed + [item] && s'.box.pending == s.box.pending + [item]
    requires s'.h.clearEpochs == s.h.clearEpochs
    requires item.index == |s.h.pushed| && item.gen == |s.h.clearEpochs|
    ensures PendingIsTail(s')
  {
    assert s'.h.pushed[Gone(s)..] == s.h.pushed[Gone(s)..] + [item];
  }

  lemma PushKeepsPartition(s: State, s': State, item: Item)
    requires Partitioned(s) && s'.h.pushed == s.h.pushed + [item] && s'.box.pending == s.box.pending + [item]
    requires s'.h.delivered == s.h.delivered && s'.h.dropped == s.h.dropped
    ensures Partitioned(s')
  {
  }

  lemma PushKeepsFrames(s: State, s': State, id: string, content: string)
    requires FromFrames(s) && s'.h.frames == s.h.frames + [UserMessage(id, content)]
    requires |s'.h.pushed| == |s.h.pushed| + 1 && s'.h.pushed[..|s.h.pushed|] == s.h.pushed
    requires s'.h.pushed[|s.h.pushed|].msg == Message(id, content) && s'.h.clearEpochs == s.h.clearEpochs
    ensures FromFrames(s')
  {
    assert s'.h.frames[..|s.h.frames|] == s.h.frames;
    assert MessagesOf(s'.h.pushed) == MessagesOf(s.h.pushed) + [Message(id, content)];
  }

  lemma PushKeepsQueue(s: State, id: string, content: string)
    requires QueueInv(s)
    ensures QueueInv(PumpStep(s, ReadUser(id, content)))
  {
    var s' := PumpStep(s, ReadUser(id, content));
    var item := Item(Message(id, content), |s.h.pushed|, |s.h.clearEpochs|);
    PushKeepsTail(s, s', item);
    PushKeepsPartition(s, s', item);
    PushKeepsFrames(s, s', id, content);
    assert InOrder(s');
  }

  lemma ClearKeepsTail(s: State)
    requires PendingIsTail(s)
    ensures PendingIsTail(PumpStep(s, ReadClear))
  {
    assert s.h.pushed[|s.h.pushed|..] == [];
  }

  lemma ClearKeepsPartition(s: State)
    requires Partitioned(s)
    ensures Partitioned(PumpStep(s, ReadClear))
  {
    assert multiset(s.h.dropped + s.box.pending) == multiset(s.h.dropped) + multiset(s.box.pending);
  }

  lemma ClearKeepsBoundaries(s: State)
    requires PendingIsTail(s) && WithinBoundaries(s)
    ensures WithinBoundaries(PumpStep(s, ReadClear))
  {
    var s' := PumpStep(s, ReadClear);
    forall i | 0 <= i < |s'.h.delivered| ensures Bounded(s'.h.delivered[i], s'.h.clearEpochs) {
      assert Bounded(s.h.delivered[i], s.h.clearEpochs);
    }
    forall i | 0 <= i < |s'.h.dropped| ensures s'.h.dropped[i].gen < |s'.h.clearEpochs| {
      if i >= |s.h.dropped| { assert s'.h.dropped[i] == s.h.pushed[Gone(s) + i - |s.h.dropped|]; }
    }
  }

  lemma ClearKeepsFrames(s: State)
    requires FromFrames(s)
    ensures FromFrames(PumpStep(s, ReadClear))
  {
    assert (s.h.frames + [Clear])[..|s.h.frames|] == s.h.frames;
  }

  lemma ClearKeepsOrder(s: State)
    requires InOrder(s)
    ensures InOrder(PumpStep(s, ReadClear))
  {
  }

  lemma ClearKeepsQueue(s: State)
    requires QueueInv(s) && ClearedEpochIsHeld(PumpStep(s, ReadClear))
    ensures QueueInv(PumpStep(s, ReadClear))
  {
    ClearKeepsTail(s);
    ClearKeepsPartition(s);
    ClearKeepsOrder(s);
    ClearKeepsBoundaries(s);
    ClearKeepsFrames(s);
  }

  /** The consumer takes the first `n` pending messages. */
  ghost predicate Takes(s: State, s': State, n: nat) {
    && n <= |s.box.pending| && s'.box.pending == s.box.pending[n..] && s'.box.held == s.box.held
    && s'.h == Deliver(s, s.box.pending[..n]) && s'.loop == s.loop
  }

  lemma TakingKeepsTail(s: State, s': State, n: nat)
    requires PendingIsTail(s) && Takes(s, s', n)
    ensures PendingIsTail(s') && Gone(s') == Gone(s) + n
  {
    assert s'.box.pending == s.h.pushed[Gone(s)..][n..];
  }

  lemma TakingKeepsPartition(s: State, s': State, n: nat)
    requires Partitioned(s) && Takes(s, s', n)
    ensures Partitioned(s')
  {
    assert ItemsOf(s'.h.delivered) == ItemsOf(s.h.delivered) + s.box.pending[..n];
    assert s.box.pending == s.box.pending[..n] + s'.box.pending;
  }

  lemma TakenItem(s: State, s': State, n: nat, i: int)
    requires PendingIsTail(s) && Takes(s, s', n) && |s.h.delivered| <= i < |s'.h.delivered|
    ensures var k := Gone(s) + i - |s.h.delivered|;
            && Gone(s) <= k < Gone(s) + n
            && s'.h.delivered[i] == Delivery(s.h.pushed[k], s.loop.epoch, |s.h.clearEpochs|)
            && s.h.pushed[k].index == k && s.h.pushed[k].gen == |s.h.clearEpochs|
  {
    assert s'.h.delivered[i] == Deliveries(s.box.pending[..n], s.loop.epoch, |s.h.clearEpochs|)[i - |s.h.delivered|];
  }

  lemma TakingKeepsOrder(s: State, s': State, n: nat)
    requires PendingIsTail(s) && InOrder(s) && Takes(s, s', n) && Gone(s') == Gone(s) + n
    ensures InOrder(s')
  {
    forall i | |s.h.delivered| <= i < |s'.h.delivered|
      ensures s'.h.delivered[i].item.index == Gone(s) + i - |s.h.delivered| < Gone(s')
      ensures s'.h.pushed[s'.h.delivered[i].item.index] == s'.h.delivered[i].item
    {
      TakenItem(s, s', n, i);
    }
    assert forall i :: 0 <= i < |s.h.delivered| ==> s'.h.delivered[i] == s.h.delivered[i];
  }

  lemma TakingKeepsBoundaries(s: State, s': State, n: nat)
    requires PendingIsTail(s) && WithinBoundaries(s) && ClearedEpochIsHeld(s) && Takes(s, s', n)
    requires s.loop.pc == Running && !s.box.held
    ensures WithinBoundaries(s')
  {
    forall i | 0 <= i < |s'.h.delivered| ensures Bounded(s'.h.delivered[i], s'.h.clearEpochs) {
      if i < |s.h.delivered| { assert Bounded(s.h.delivered[i], s.h.clearEpochs); }
      else { TakenItem(s, s', n, i); }
    }
  }

  lemma DeliveryKeepsQueue(s: State, s': State, n: nat)
    requires QueueInv(s) && s.loop.pc == Running && !s.box.held && Takes(s, s', n) && ClearedEpochIsHeld(s')
    ensures QueueInv(s')
  {
    TakingKeepsTail(s, s', n);
    TakingKeepsPartition(s, s', n);
    TakingKeepsOrder(s, s', n);
    TakingKeepsBoundaries(s, s', n);
  }

  /** The step leaves the queue and its history alone. */
  lemma QuietKeepsQueue(s: State, s': State)
    requires QueueInv(s) && SameQueue(s, s') && ClearedEpochIsHeld(s')
    ensures QueueInv(s')
  {
  }

  ghost predicate SameQueue(s: State, s': State) {
    && s'.box.pending == s.box.pending
    && s'.h.pushed == s.h.pushed && s'.h.delivered == s.h.delivered && s'.h.dropped == s.h.dropped
    && s'.h.clearEpochs == s.h.clearEpochs && s'.h.frames == s.h.frames
  }

  lemma QuietPump(s: State, a: Action)
    requires IsPump(a) && !a.ReadUser? && !a.ReadClear?
    ensures SameQueue(s, PumpStep(s, a))
  {
  }

  lemma QuietConsumer(s: State, a: Action)
    requires IsConsume(a)
    requires a.DrainAll? ==> s.box.held
    requires a.WaitCheck? ==> !Deliverable(s.box)
    ensures SameQueue(s, ConsumeStep(s, a))
  {
  }

  lemma QuietLoop(s: State)
    ensures SameQueue(s, LoopNext(s))
  {
  }

  lemma QuietSteps(s: State, a: Action)
    requires Enabled(s, a) && !a.ReadUser? && !a.ReadClear?
    requires a.DrainAll? ==> s.box.held
    requires a.WaitCheck? ==> !Deliverable(s.box)
    ensures SameQueue(s, Apply(s, a))
  {
    if IsPump(a) { QuietPump(s, a); }
    else if IsConsume(a) { QuietConsumer(s, a); }
    else if a.LoopStep? { QuietLoop(s); }
  }

  lemma LoopKeepsHold(s: State)
    requires ClearedEpochIsHeld(s) && Enabled(s, LoopStep)
    ensures ClearedEpochIsHeld(LoopNext(s))
  {
  }

  lemma StepKeepsHold(s: State, a: Action)
    requires ClearedEpochIsHeld(s) && Enabled(s, a)
    ensures ClearedEpochIsHeld(Apply(s, a))
  {
    if a.LoopStep? { LoopKeepsHold(s); }
  }

  lemma StepKeepsQueue(s: State, a: Action)
    requires QueueInv(s) && Enabled(s, a)
    ensures QueueInv(Apply(s, a))
  {
    StepKeepsHold(s, a);
    if a.ReadUser? { PushKeepsQueue(s, a.id, a.content); }
    else if a.ReadClear? { ClearKeepsQueue(s); }
    else if a.DrainAll? && !s.box.held { DrainKeepsQueue(s); }
    else if a.WaitCheck? && Deliverable(s.box) { TakeKeepsQueue(s); }
    else {
      QuietSteps(s, a);
      QuietKeepsQueue(s, Apply(s, a));
    }
  }

  lemma DrainKeepsQueue(s: State)
    requires QueueInv(s) && Enabled(s, DrainAll) && !s.box.held
    ensures QueueInv(ConsumeStep(s, DrainAll))
  {
    var n := |s.box.pending|;
    StepKeepsHold(s, DrainAll);
    assert s.box.pending[..n] == s.box.pending && s.box.pending[n..] == [];
    DeliveryKeepsQueue(s, ConsumeStep(s, DrainAll), n);
  }

  lemma TakeKeepsQueue(s: State)
    requires QueueInv(s) && Enabled(s, WaitCheck) && Deliverable(s.box)
    ensures QueueInv(ConsumeStep(s, WaitCheck))
  {
    StepKeepsHold(s, WaitCheck);
    DeliveryKeepsQueue(s, ConsumeStep(s, WaitCheck), 1);
  }

  lemma {:induction false} QueueInvFrom(s: State, acts: seq<Action>, s': State)
    requires QueueInv(s) && ExecFrom(s, acts) == Some(s')
    ensures QueueInv(s')
    decreases |acts|
  {
    if acts != [] {
      StepKeepsQueue(s, acts[0]);
      QueueInvFrom(Apply(s, acts[0]), acts[1..], s');
    }
  }

  // ---------------------------------------------------------------- what it means

  /** Every user message read is pushed, once and in order; the pushed messages are exactly the
      delivered, the dropped and the pending ones; deliveries come in pushing order, none twice. */
  lemma MessagesAreConserved(history: seq<string>, primer: string, acts: seq<Action>, s: State)
    requires Reaches(history, primer, acts, s)
    ensures MessagesOf(s.h.pushed) == Users(s.h.frames)
    ensures multiset(s.h.pushed)
            == multiset(ItemsOf(s.h.delivered)) + multiset(s.h.dropped) + multiset(s.box.pending)
    ensures forall i :: 0 <= i < |s.h.delivered| ==>
              var d := s.h.delivered[i].item;
              d.index < |s.h.pushed| && s.h.pushed[d.index] == d
    ensures forall i, j :: 0 <= i < j < |s.h.delivered| ==>
              s.h.delivered[i].item.index < s.h.delivered[j].item.index
  {
    QueueInvFrom(Init(history, primer), acts, s);
  }

  // ---------------------------------------------------------------- the end at a clear

  /** Once the input has ended, nothing more is read; and what releaseClear found spent stays so. */
  ghost predicate EndFits(s: State) {
    && (s.box.closed ==> s.pump == ClosePinging || s.pump == Stopped)
    && (s.loop.pc == ReleasePing(true) ==> s.box.closed && s.box.pending == [])
  }

  lemma {:induction false} EndFitsFrom(s: State, acts: seq<Action>, s': State)
    requires EndFits(s) && (s.consumer != Idle ==> s.loop.pc == Running) && ExecFrom(s, acts) == Some(s')
    ensures EndFits(s')
    decreases |acts|
  {
    if acts != [] {
      StepKeepsEndFits(s, acts[0]);
      EndFitsFrom(Apply(s, acts[0]), acts[1..], s');
    }
  }

  lemma StepKeepsEndFits(s: State, a: Action)
    requires EndFits(s) && (s.consumer != Idle ==> s.loop.pc == Running) && Enabled(s, a)
    ensures EndFits(Apply(s, a))
    ensures Apply(s, a).consumer != Idle ==> Apply(s, a).loop.pc == Running
  {
  }

  /** At a clear the session ends exactly when its input has ended and nothing is queued. */
  lemma EndsAtAClearExactlyWhenSpent(s: State)
    requires s.loop.pc == Releasing
    ensures LoopNext(s).loop.pc == ReleasePing(true) <==> s.box.closed && s.box.pending == []
    ensures LoopNext(s).loop.pc == ReleasePing(false) <==> !s.box.closed || s.box.pending != []
  {
  }

  /** A session that ends at a clear leaves no message behind: all that was ever pushed has been
      delivered, or dropped by a clear. */
  lemma EndAtAClearLeavesNothing(history: seq<string>, primer: string, acts: seq<Action>, s: State)
    requires Reaches(history, primer, acts, s) && s.loop.pc == ReleasePing(true)
    ensures s.box.closed && s.box.pending == []
    ensures multiset(s.h.pushed) == multiset(ItemsOf(s.h.delivered)) + multiset(s.h.dropped)
  {
    EndFitsFrom(Init(history, primer), acts, s);
    MessagesAreConserved(history, primer, acts, s);
  }

  // ---------------------------------------------------------------- boundaries

  /** A clear is a boundary: nothing pushed before it is delivered after it, what it drops was pushed
      before it, and nothing pushed after it reaches the epoch under way when it was read. */
  lemma ClearsAreBoundaries(history: seq<string>, primer: string, acts: seq<Action>, s: State)
    requires Reaches(history, primer, acts, s)
    ensures forall i :: 0 <= i < |s.h.delivered| ==>
              s.h.delivered[i].item.gen == s.h.delivered[i].clears <= |s.h.clearEpochs|
    ensures forall i, c :: 0 <= i < |s.h.delivered| && 0 <= c < s.h.delivered[i].item.gen ==>
              s.h.clearEpochs[c] < s.h.delivered[i].epoch
    ensures forall i :: 0 <= i < |s.h.dropped| ==> s.h.dropped[i].gen < |s.h.clearEpochs|
    ensures |s.h.clearEpochs| == Clears(s.h.frames)
  {
    QueueInvFrom(Init(history, primer), acts, s);
    forall i | 0 <= i < |s.h.delivered| ensures Bounded(s.h.delivered[i], s.h.clearEpochs) {}
  }
}
