/**
 The worker's /clear protocol (internal/chatwork/run.go with internal/chatwork/inbox.go), as a step
 machine: the Pump goroutine reading frames, the current epoch's clear watcher, the epoch loop, and
 the harness consuming the inbox. Every lock section and channel operation is one step; how long
 harness.Run goes on and what it asks of the inbox is left open, except that it returns only when
 its consumer is idle.
 */
module Epochs {
  import opened Options
  import opened Runs
  import opened Frames
  import opened Inbox

  // ---------------------------------------------------------------- state

  /** A pushed message, its place among all pushed and the number of clears read before it. */
  datatype Item = Item(msg: Message, index: nat, gen: nat)

  /** What the consumer got, in which epoch, after how many clears. */
  datatype Delivery = Delivery(item: Item, epoch: nat, clears: nat)

  datatype PumpPc = Reading | Pinging | Signalling | ClosePinging | Stopped

  /** The goroutine of line 197: the select, the flag, the cancel. */
  datatype WatchPc = Selecting | Took | Flagged | Quit

  datatype LoopPc =
    | Running | Returned | Cancelled          // harness.Run; after it; after cancel()
    | Releasing | ReleasePing(spent: bool)    // releaseClear: lock section, ping
    | DrainingStale | Exited

  datatype ConsumerPc = Idle | Checking | Parked

  /** One epoch as harness.Run sees it. */
  datatype Start = Start(history: seq<string>, task: string)

  datatype Loop = Loop(pc: LoopPc, epoch: nat, cleared: bool, ctxDone: bool, history: seq<string>, task: string)

  /** Where the last clear frame was read and signalled, relative to the gap between releaseClear
      and the stale-signal drain; `missed`: the current epoch started right after a clear was read
      and signalled wholly inside that gap, and no clear has been read since. */
  datatype Gap = Gap(readInGap: bool, sentInGap: bool, missed: bool)

  datatype Hist = Hist(
    frames: seq<Frame>,
    pushed: seq<Item>, delivered: seq<Delivery>, dropped: seq<Item>,
    clearEpochs: seq<nat>,               // the epoch under way when each clear was read
    taken: nat, drained: nat, coalesced: nat,
    starts: seq<Start>)

  datatype State = State(
    box: Box<Item>, slot: bool, pump: PumpPc, watch: WatchPc, loop: Loop, consumer: ConsumerPc,
    gap: Gap, h: Hist, primer: string)

  function Init(history: seq<string>, primer: string): State {
    State(Box([], false, false, false), false, Reading, Selecting,
          Loop(Running, 0, false, false, history, primer), Idle, Gap(false, false, false),
          Hist([], [], [], [], [], 0, 0, 0, [Start(history, primer)]), primer)
  }

  predicate InGap(pc: LoopPc) {
    pc.ReleasePing? || pc.DrainingStale?
  }

  // ---------------------------------------------------------------- steps

  datatype Action =
    | ReadUser(id: string, content: string) | ReadClear | ReadEnd | PumpPing | PumpSignal
    | WatchTake | WatchFlag | WatchCancel | WatchQuit
    | DrainAll | WaitEnter | WaitCheck | WaitWake | WaitAbort
    | LoopStep
    | ParentCancel

  predicate Enabled(s: State, a: Action) {
    match a
    case ReadUser(_, _) => s.pump == Reading
    case ReadClear => s.pump == Reading
    case ReadEnd => s.pump == Reading
    case PumpPing => s.pump == Pinging || s.pump == ClosePinging
    case PumpSignal => s.pump == Signalling
    case WatchTake => s.watch == Selecting && s.slot
    case WatchFlag => s.watch == Took
    case WatchCancel => s.watch == Flagged
    case WatchQuit => s.watch == Selecting && s.loop.ctxDone
    case DrainAll => s.loop.pc == Running && s.consumer == Idle
    case WaitEnter => s.loop.pc == Running && s.consumer == Idle
    case WaitCheck => s.consumer == Checking
    case WaitWake => s.consumer == Parked && s.box.signal
    case WaitAbort => s.consumer == Parked && s.loop.ctxDone
    case LoopStep => s.loop.pc != Exited && (s.loop.pc == Running ==> s.consumer == Idle)
    case ParentCancel => true
  }

  predicate IsPump(a: Action) {
    a.ReadUser? || a.ReadClear? || a.ReadEnd? || a.PumpPing? || a.PumpSignal?
  }

  predicate IsWatch(a: Action) {
    a.WatchTake? || a.WatchFlag? || a.WatchCancel? || a.WatchQuit?
  }

  predicate IsConsume(a: Action) {
    a.DrainAll? || a.WaitEnter? || a.WaitCheck? || a.WaitWake? || a.WaitAbort?
  }

  function PumpStep(s: State, a: Action): State
    requires IsPump(a)
  {
    match a
    case ReadUser(id, content) =>
      var item := Item(Message(id, content), |s.h.pushed|, |s.h.clearEpochs|);
      s.(box := Enqueue(s.box, item), pump := Pinging,
         h := s.h.(frames := s.h.frames + [UserMessage(id, content)], pushed := s.h.pushed + [item]))
    case ReadClear =>
      s.(box := Hold(s.box), pump := Signalling,
         gap := Gap(InGap(s.loop.pc), false, false),
         h := s.h.(frames := s.h.frames + [Clear], dropped := s.h.dropped + s.box.pending,
                   clearEpochs := s.h.clearEpochs + [s.loop.epoch]))
    case ReadEnd => s.(box := Shut(s.box), pump := ClosePinging)
    case PumpPing => s.(box := Ring(s.box), pump := if s.pump == Pinging then Reading else Stopped)
    case PumpSignal =>
      s.(slot := true, pump := Reading,
         gap := s.gap.(sentInGap := s.gap.readInGap && InGap(s.loop.pc)),
         h := if s.slot then s.h.(coalesced := s.h.coalesced + 1) else s.h)
  }

  function WatchStep(s: State, a: Action): State
    requires IsWatch(a)
  {
    match a
    case WatchTake => s.(slot := false, watch := Took, h := s.h.(taken := s.h.taken + 1))
    case WatchFlag => s.(watch := Flagged, loop := s.loop.(cleared := true))
    case WatchCancel => s.(watch := Quit, loop := s.loop.(ctxDone := true))
    case WatchQuit => s.(watch := Quit)
  }

  function Deliver(s: State, items: seq<Item>): Hist {
    s.h.(delivered := s.h.delivered + Deliveries(items, s.loop.epoch, |s.h.clearEpochs|))
  }

  function Deliveries(items: seq<Item>, epoch: nat, clears: nat): (r: seq<Delivery>)
    ensures |r| == |items|
    ensures forall i :: 0 <= i < |items| ==> r[i] == Delivery(items[i], epoch, clears)
  {
    seq(|items|, i requires 0 <= i < |items| => Delivery(items[i], epoch, clears))
  }

  function ConsumeStep(s: State, a: Action): State
    requires IsConsume(a)
  {
    match a
    case DrainAll => s.(box := TakeAll(s.box), h := if s.box.held then s.h else Deliver(s, s.box.pending))
    case WaitEnter => s.(consumer := Checking)
    case WaitCheck =>
      if Deliverable(s.box) then
        s.(box := TakeFirst(s.box), consumer := Idle, h := Deliver(s, s.box.pending[..1]))
      else s.(consumer := if s.box.closed then Idle else Parked)
    case WaitWake => s.(consumer := Checking, box := s.box.(signal := false))
    case WaitAbort => s.(consumer := Idle)
  }

  function LoopNext(s: State): State {
    match s.loop.pc
    case Running => s.(loop := s.loop.(pc := Returned))
    case Returned => s.(loop := s.loop.(pc := Cancelled, ctxDone := true))
    case Cancelled =>
      s.(loop := if s.loop.cleared then s.loop.(pc := Releasing, history := []) else s.loop.(pc := Exited))
    case Releasing =>
      s.(box := Release(s.box), loop := s.loop.(pc := ReleasePing(Spent(s.box))), gap := Gap(false, false, false))
    case ReleasePing(spent) =>
      s.(box := Ring(s.box),
         loop := if spent then s.loop.(pc := Exited) else s.loop.(pc := DrainingStale, task := s.primer))
    case DrainingStale =>
      s.(slot := false, watch := Selecting,
         loop := Loop(Running, s.loop.epoch + 1, false, false, s.loop.history, s.loop.task),
         gap := Gap(false, false, s.gap.readInGap && s.gap.sentInGap),
         h := s.h.(drained := s.h.drained + (if s.slot then 1 else 0),
                   starts := s.h.starts + [Start(s.loop.history, s.loop.task)]))
    case Exited => s
  }

  function Apply(s: State, a: Action): State
    requires Enabled(s, a)
  {
    if IsPump(a) then PumpStep(s, a)
    else if IsWatch(a) then WatchStep(s, a)
    else if IsConsume(a) then ConsumeStep(s, a)
    else if a.LoopStep? then LoopNext(s)
    else s.(loop := s.loop.(ctxDone := true))
  }

  function Next(s: State, a: Action): Option<State> {
    if Enabled(s, a) then Some(Apply(s, a)) else None
  }

  ghost function ExecFrom(s: State, acts: seq<Action>): Option<State> {
    After(Next, s, acts)
  }

  ghost predicate Reaches(history: seq<string>, primer: string, acts: seq<Action>, s: State) {
    ExecFrom(Init(history, primer), acts) == Some(s)
  }

  // ---------------------------------------------------------------- the loop's own code

  /** epochLoop with nobody else at the inbox; `cleared` says of each successive run whether a clear
      cut it short. Every epoch but the first starts afresh, and a new one starts exactly after a
      cleared one whose inbox still has something to give or is still open. */
  method EpochLoop(inbox: ChatInbox<Item>, slot: bool, history: seq<string>, primer: string, cleared: seq<bool>)
    returns (starts: seq<Start>, slot': bool)
    requires |cleared| > 0
    modifies inbox
    ensures 1 <= |starts| <= |cleared| && starts[0] == Start(history, primer)
    ensures forall i :: 0 < i < |starts| ==> starts[i] == Start([], primer)
    ensures forall i :: 0 <= i < |starts| - 1 ==> cleared[i]
    ensures |starts| > 1 <==> |cleared| > 1 && cleared[0] && (!old(inbox.closed) || old(inbox.pending) != [])
    ensures |starts| < |cleared| ==> !cleared[|starts| - 1] || (old(inbox.closed) && old(inbox.pending) == [])
    ensures inbox.pending == old(inbox.pending) && inbox.closed == old(inbox.closed)
    ensures inbox.held == (old(inbox.held) && !cleared[0])
    ensures slot' == (slot && (!cleared[0] || (old(inbox.closed) && old(inbox.pending) == [])))
  {
    var task, hist := primer, history;
    slot' := slot;
    starts := [];
    for i := 0 to |cleared|
      invariant |starts| == i && hist == (if i == 0 then history else []) && task == primer
      invariant i > 0 ==> starts[0] == Start(history, primer)
      invariant forall k :: 0 < k < i ==> starts[k] == Start([], primer)
      invariant forall k :: 0 <= k < i ==> cleared[k]
      invariant i > 0 ==> !old(inbox.closed) || old(inbox.pending) != []
      invariant inbox.pending == old(inbox.pending) && inbox.closed == old(inbox.closed)
      invariant inbox.held == (old(inbox.held) && i == 0)
      invariant slot' == (slot && i == 0)
    {
      starts := starts + [Start(hist, task)];
      if !cleared[i] { return; }
      hist := [];
      var closed := inbox.ReleaseClear();
      if closed { return; }
      task := primer;
      slot' := false;
    }
  }
}
