/** Wake-ups, the clear hold and its signal, and the accounting of clear signals, over every run. */
module EpochSignals {
  import opened Options
  import opened Runs
  import opened Inbox
  import opened Epochs

  // ---------------------------------------------------------------- no lost wake-up

  /** A parked consumer with something to wake for finds the wake token, or a producer that has
      changed the inbox is about to leave one. */
  ghost predicate WakeInv(s: State) {
    && (s.consumer == Parked && (Deliverable(s.box) || s.box.closed) ==>
          s.box.signal || s.pump == Pinging || s.pump == ClosePinging)
    && (s.consumer != Idle ==> s.loop.pc == Running)
  }

  lemma StepKeepsWake(s: State, a: Action)
    requires WakeInv(s) && Enabled(s, a)
    ensures WakeInv(Apply(s, a))
  {
  }

  // ---------------------------------------------------------------- hold and signal

  /** The end of the current epoch is on its way: a token waits for the watcher, the watcher has
      taken one, or Pump is between onClear and its send. */
  ghost predicate Signalled(s: State) {
    s.slot || s.watch == Took || s.loop.cleared || s.pump == Signalling
  }

  ghost predicate WatchFits(s: State) {
    && (s.watch == Flagged ==> s.loop.cleared)
    && (s.loop.cleared ==> s.watch == Flagged || s.watch == Quit)
    && (s.watch == Quit ==> s.loop.ctxDone)
    && (s.loop.pc.Releasing? || s.loop.pc.ReleasePing? || s.loop.pc.DrainingStale? ==> s.loop.cleared)
  }

  /** In the gap, a hold was put on in the gap, and its signal is either sent in the gap or pending. */
  ghost predicate GapFits(s: State) {
    && (s.gap.sentInGap ==> s.gap.readInGap)
    && (s.gap.readInGap ==> s.box.held || !InGap(s.loop.pc))
    && (s.pump == Signalling ==> !s.gap.sentInGap && !s.gap.missed)
    && (InGap(s.loop.pc) && s.box.held ==>
          s.gap.readInGap && (s.gap.sentInGap <==> s.pump != Signalling))
  }

  ghost predicate AgreeInv(s: State) {
    WatchFits(s) && GapFits(s) && HoldFits(s)
  }

  /** The statement itself, for a running epoch. */
  ghost predicate HoldFits(s: State) {
    s.loop.pc == Running ==> (s.box.held && !Signalled(s) <==> s.gap.missed)
  }

  lemma PumpKeepsGap(s: State, a: Action)
    requires GapFits(s) && Enabled(s, a) && IsPump(a)
    ensures GapFits(PumpStep(s, a))
  {
  }

  lemma LoopKeepsGap(s: State)
    requires GapFits(s) && Enabled(s, LoopStep)
    ensures GapFits(LoopNext(s))
  {
  }

  lemma StepKeepsGap(s: State, a: Action)
    requires GapFits(s) && Enabled(s, a)
    ensures GapFits(Apply(s, a))
  {
    if IsPump(a) { PumpKeepsGap(s, a); }
    else if a.LoopStep? { LoopKeepsGap(s); }
  }

  lemma PumpKeepsHold(s: State, a: Action)
    requires GapFits(s) && HoldFits(s) && Enabled(s, a) && IsPump(a)
    ensures HoldFits(PumpStep(s, a))
  {
  }

  lemma WatchKeepsHold(s: State, a: Action)
    requires HoldFits(s) && Enabled(s, a) && IsWatch(a) && WatchFits(s)
    ensures HoldFits(WatchStep(s, a))
  {
  }

  lemma ConsumeKeepsHold(s: State, a: Action)
    requires HoldFits(s) && Enabled(s, a) && IsConsume(a)
    ensures HoldFits(ConsumeStep(s, a))
  {
  }

  lemma LoopKeepsHold(s: State)
    requires GapFits(s) && HoldFits(s) && Enabled(s, LoopStep)
    ensures HoldFits(LoopNext(s))
  {
  }

  lemma StepKeepsAgree(s: State, a: Action)
    requires AgreeInv(s) && Enabled(s, a)
    ensures AgreeInv(Apply(s, a))
  {
    StepKeepsWatch(s, a);
    StepKeepsGap(s, a);
    if IsPump(a) { PumpKeepsHold(s, a); }
    else if IsWatch(a) { WatchKeepsHold(s, a); }
    else if IsConsume(a) { ConsumeKeepsHold(s, a); }
    else if a.LoopStep? { LoopKeepsHold(s); }
  }

  // ---------------------------------------------------------------- accounting

  ghost predicate SignalsAddUp(s: State) {
    && |s.h.clearEpochs| == s.h.taken + s.h.drained + s.h.coalesced
                            + (if s.slot then 1 else 0) + (if s.pump == Signalling then 1 else 0)
    && s.h.taken == s.loop.epoch + (if s.watch == Took || s.loop.cleared then 1 else 0)
  }

  ghost predicate StartsFit(s: State) {
    && |s.h.starts| == s.loop.epoch + 1
    && (forall i :: 0 < i < |s.h.starts| ==> s.h.starts[i] == Start([], s.primer))
    && (s.loop.pc.Releasing? || s.loop.pc.ReleasePing? || s.loop.pc.DrainingStale? ==> s.loop.history == [])
    && (s.loop.pc.DrainingStale? ==> s.loop.task == s.primer)
  }

  ghost predicate CountInv(s: State) {
    WatchFits(s) && SignalsAddUp(s) && StartsFit(s)
  }

  lemma StepKeepsWatch(s: State, a: Action)
    requires WatchFits(s) && Enabled(s, a)
    ensures WatchFits(Apply(s, a))
  {
  }

  lemma PumpKeepsCount(s: State, a: Action)
    requires SignalsAddUp(s) && StartsFit(s) && Enabled(s, a) && IsPump(a)
    ensures SignalsAddUp(PumpStep(s, a)) && StartsFit(PumpStep(s, a))
  {
  }

  lemma WatchKeepsCount(s: State, a: Action)
    requires WatchFits(s) && SignalsAddUp(s) && StartsFit(s) && Enabled(s, a) && IsWatch(a)
    ensures SignalsAddUp(WatchStep(s, a)) && StartsFit(WatchStep(s, a))
  {
  }

  lemma ConsumeKeepsCount(s: State, a: Action)
    requires SignalsAddUp(s) && StartsFit(s) && Enabled(s, a) && IsConsume(a)
    ensures SignalsAddUp(ConsumeStep(s, a)) && StartsFit(ConsumeStep(s, a))
  {
  }

  lemma LoopKeepsSignals(s: State)
    requires WatchFits(s) && SignalsAddUp(s) && Enabled(s, LoopStep)
    ensures SignalsAddUp(LoopNext(s))
  {
  }

  lemma LoopKeepsStarts(s: State)
    requires StartsFit(s) && Enabled(s, LoopStep)
    ensures StartsFit(LoopNext(s))
  {
  }

  lemma StepKeepsCount(s: State, a: Action)
    requires CountInv(s) && Enabled(s, a)
    ensures CountInv(Apply(s, a))
  {
    StepKeepsWatch(s, a);
    if IsPump(a) { PumpKeepsCount(s, a); }
    else if IsWatch(a) { WatchKeepsCount(s, a); }
    else if IsConsume(a) { ConsumeKeepsCount(s, a); }
    else if a.LoopStep? { LoopKeepsSignals(s); LoopKeepsStarts(s); }
  }

  // ---------------------------------------------------------------- every run

  ghost predicate Inv(s: State) {
    WakeInv(s) && AgreeInv(s) && CountInv(s)
  }

  lemma {:induction false} InvFrom(s: State, acts: seq<Action>, s': State)
    requires Inv(s) && ExecFrom(s, acts) == Some(s')
    ensures Inv(s')
    decreases |acts|
  {
    if acts != [] {
      StepKeepsWake(s, acts[0]);
      StepKeepsAgree(s, acts[0]);
      StepKeepsCount(s, acts[0]);
      InvFrom(Apply(s, acts[0]), acts[1..], s');
    }
  }

  /** No lost wake-up: a consumer parked in Wait with a message it may have, or with the inbox
      closed, can be woken now or by the ping some producer still owes. */
  lemma NoLostWakeup(history: seq<string>, primer: string, acts: seq<Action>, s: State)
    requires Reaches(history, primer, acts, s)
    requires s.consumer == Parked && (Deliverable(s.box) || s.box.closed)
    ensures Enabled(s, WaitWake) || (Enabled(s, PumpPing) && Enabled(Apply(s, PumpPing), WaitWake))
  {
    InvFrom(Init(history, primer), acts, s);
  }

  /** While an epoch runs, a held inbox has its signal under way, except in exactly one case: the
      clear that holds it was read and signalled between releaseClear and the drain of stale
      signals, which threw that signal away. */
  lemma HeldIsSignalledExactlyUnlessMissed(history: seq<string>, primer: string, acts: seq<Action>, s: State)
    requires Reaches(history, primer, acts, s) && s.loop.pc == Running
    ensures (s.box.held ==> Signalled(s)) <==> !s.gap.missed
  {
    InvFrom(Init(history, primer), acts, s);
  }

  /** Every clear frame read is accounted for; there are never more epochs after the first than
      clears; and each of them starts with no history and the primer as its task. */
  lemma ClearSignalsAddUp(history: seq<string>, primer: string, acts: seq<Action>, s: State)
    requires Reaches(history, primer, acts, s)
    ensures |s.h.clearEpochs| == s.h.taken + s.h.drained + s.h.coalesced
                                 + (if s.slot then 1 else 0) + (if s.pump == Signalling then 1 else 0)
    ensures |s.h.starts| == s.loop.epoch + 1 <= 1 + |s.h.clearEpochs|
    ensures forall i :: 0 < i < |s.h.starts| ==> s.h.starts[i] == Start([], primer)
  {
    InvFrom(Init(history, primer), acts, s);
    PrimerIsFixed(Init(history, primer), acts, s);
  }

  lemma {:induction false} PrimerIsFixed(s: State, acts: seq<Action>, s': State)
    requires ExecFrom(s, acts) == Some(s')
    ensures s'.primer == s.primer
    decreases |acts|
  {
    if acts != [] { PrimerIsFixed(Apply(s, acts[0]), acts[1..], s'); }
  }

  // ---------------------------------------------------------------- the hold is released

  /** The step that brings a held epoch closer to its release, made by somebody other than the
      user, the model or the parent context. */
  function TowardRelease(s: State): Action {
    if s.loop.pc != Running then LoopStep
    else if s.pump == Signalling then PumpSignal
    else if s.watch == Selecting && s.slot then WatchTake
    else if s.watch == Took then WatchFlag
    else if s.watch == Flagged then WatchCancel
    else if s.consumer == Checking then WaitCheck
    else if s.consumer == Parked then WaitAbort
    else LoopStep
  }

  function Distance(s: State): nat {
    match s.loop.pc
    case Running =>
      3 + (if s.consumer == Idle then 1 else if s.consumer == Parked then 2 else 3)
        + (match s.watch case Quit => 0 case Flagged => 1 case Took => 2 case Selecting => 3)
        + (if s.pump == Signalling then 1 else 0)
    case Returned => 3
    case Cancelled => 2
    case Releasing => 1
    case _ => 0
  }

  /** A held epoch that will be left: it runs with its end signalled, or it is being left. */
  ghost predicate Leaving(s: State) {
    && Inv(s)
    && match s.loop.pc
       case Running => s.box.held && Signalled(s)
       case Returned => true
       case Cancelled => true
       case Releasing => true
       case _ => false
  }

  lemma TowardReleaseIsEnabled(s: State)
    requires Leaving(s)
    ensures Enabled(s, TowardRelease(s))
  {
  }

  lemma TowardReleaseShortens(s: State)
    requires Leaving(s) && Enabled(s, TowardRelease(s))
    ensures Distance(Apply(s, TowardRelease(s))) < Distance(s)
  {
  }

  lemma TowardReleaseArrives(s: State)
    requires Leaving(s) && Enabled(s, TowardRelease(s)) && s.loop.pc != Running
    ensures var s' := Apply(s, TowardRelease(s));
            s'.loop.pc in {Returned, Cancelled, Releasing, Exited} || (s'.loop.pc.ReleasePing? && !s'.box.held)
  {
  }

  lemma TowardReleaseStaysSignalled(s: State)
    requires Leaving(s) && Enabled(s, TowardRelease(s)) && s.loop.pc == Running
    ensures var s' := Apply(s, TowardRelease(s));
            s'.loop.pc == Returned || (s'.loop.pc == Running && s'.box.held && Signalled(s'))
  {
  }

  lemma TowardReleaseWorks(s: State)
    requires Leaving(s)
    ensures Enabled(s, TowardRelease(s))
    ensures var s' := Apply(s, TowardRelease(s));
            && Inv(s') && Distance(s') < Distance(s)
            && (Leaving(s') || s'.loop.pc == Exited || (s'.loop.pc.ReleasePing? && !s'.box.held))
  {
    var a := TowardRelease(s);
    TowardReleaseIsEnabled(s);
    TowardReleaseShortens(s);
    if s.loop.pc == Running { TowardReleaseStaysSignalled(s); } else { TowardReleaseArrives(s); }
    StepKeepsWake(s, a);
    StepKeepsAgree(s, a);
    StepKeepsCount(s, a);
  }

  /** From every held, signalled state of a running epoch the worker can, on its own and by steps
      that are each enabled in turn, get to the release of the hold or the end of the session. */
  lemma {:induction false} HeldEpochCanBeReleased(s: State) returns (acts: seq<Action>, s': State)
    requires Leaving(s)
    ensures ExecFrom(s, acts) == Some(s')
    ensures s'.loop.pc == Exited || (s'.loop.pc.ReleasePing? && !s'.box.held)
    ensures forall i :: 0 <= i < |acts| ==>
              !acts[i].ReadUser? && !acts[i].ReadClear? && !acts[i].ReadEnd? && !acts[i].ParentCancel?
    decreases Distance(s)
  {
    TowardReleaseWorks(s);
    var a := TowardRelease(s);
    var next := Apply(s, a);
    if Leaving(next) {
      var rest;
      rest, s' := HeldEpochCanBeReleased(next);
      acts := [a] + rest;
      assert acts[1..] == rest;
    } else {
      acts, s' := [a], next;
      assert ExecFrom(next, acts[1..]) == Some(next);
    }
  }

  /** So whenever an epoch runs held and no clear was missed, its hold can be released. */
  lemma UnmissedHoldCanBeReleased(history: seq<string>, primer: string, acts: seq<Action>, s: State)
    returns (more: seq<Action>, s': State)
    requires Reaches(history, primer, acts, s) && s.loop.pc == Running && s.box.held && !s.gap.missed
    ensures ExecFrom(s, more) == Some(s')
    ensures s'.loop.pc == Exited || (s'.loop.pc.ReleasePing? && !s'.box.held)
    ensures forall i :: 0 <= i < |more| ==>
              !more[i].ReadUser? && !more[i].ReadClear? && !more[i].ReadEnd? && !more[i].ParentCancel?
  {
    InvFrom(Init(history, primer), acts, s);
    more, s' := HeldEpochCanBeReleased(s);
  }

  // ---------------------------------------------------------------- the one gap, in a run

  /** A clear read and signalled between releaseClear and the drain leaves the next epoch held with
      no signal anywhere: its consumer parks and only another clear or the end of the session
      brings it back. */
  lemma ClearInTheGapIsLost(history: seq<string>, primer: string) returns (acts: seq<Action>, s: State)
    ensures Reaches(history, primer, acts, s)
    ensures s.loop.pc == Running && s.loop.epoch == 1 && s.box.held && !Signalled(s) && s.consumer == Parked
    ensures !s.box.signal && s.pump == Reading && s.watch == Selecting
  {
    var firstClear := [ReadClear, PumpSignal, WatchTake, WatchFlag, WatchCancel];
    var leave := [LoopStep, LoopStep, LoopStep, LoopStep];
    var s0 := Init(history, primer);
    var s1 := AfterFirstClear(s0);
    var s2 := AfterLeaving(s1);
    var s3 := AfterGapClear(s2);
    var a4;
    a4, s := ParkHeld(s3);
    Then(Next, s0, firstClear, s1, leave);
    Then(Next, s0, firstClear + leave, s2, [ReadClear, PumpSignal, LoopStep, LoopStep]);
    Then(Next, s0, firstClear + leave + [ReadClear, PumpSignal, LoopStep, LoopStep], s3, a4);
    acts := firstClear + leave + [ReadClear, PumpSignal, LoopStep, LoopStep] + a4;
  }

  lemma AfterFirstClear(s: State) returns (s': State)
    requires s.pump == Reading && s.watch == Selecting && !s.slot && s.loop.pc == Running && s.consumer == Idle
    requires !s.loop.cleared && !s.box.closed
    ensures ExecFrom(s, [ReadClear, PumpSignal, WatchTake, WatchFlag, WatchCancel]) == Some(s')
    ensures s'.loop == s.loop.(cleared := true, ctxDone := true) && s'.watch == Quit && !s'.slot
    ensures s'.pump == Reading && s'.consumer == Idle && s'.box == Hold(s.box) && s'.primer == s.primer
  {
    s' := Apply(Apply(Apply(Apply(Apply(s, ReadClear), PumpSignal), WatchTake), WatchFlag), WatchCancel);
  }

  lemma AfterLeaving(s: State) returns (s': State)
    requires s.loop.pc == Running && s.loop.cleared && s.consumer == Idle && s.pump == Reading
    requires !s.slot && s.box.pending == [] && !s.box.closed && s.watch == Quit
    ensures ExecFrom(s, [LoopStep, LoopStep, LoopStep, LoopStep]) == Some(s')
    ensures s'.loop.pc == ReleasePing(false) && s'.loop.epoch == s.loop.epoch && s'.consumer == Idle
    ensures s'.pump == Reading && !s'.slot && s'.box == Release(s.box)
  {
    s' := Apply(Apply(Apply(Apply(s, LoopStep), LoopStep), LoopStep), LoopStep);
  }

  lemma AfterGapClear(s: State) returns (s': State)
    requires s.loop.pc == ReleasePing(false) && s.pump == Reading && s.consumer == Idle && !s.slot
    ensures ExecFrom(s, [ReadClear, PumpSignal, LoopStep, LoopStep]) == Some(s')
    ensures s'.loop.pc == Running && s'.loop.epoch == s.loop.epoch + 1 && !s'.loop.cleared && !s'.slot
    ensures s'.box.held && s'.box.pending == [] && s'.box.closed == s.box.closed && s'.box.signal
    ensures s'.pump == Reading && s'.watch == Selecting && s'.consumer == Idle
  {
    s' := Apply(Apply(Apply(Apply(s, ReadClear), PumpSignal), LoopStep), LoopStep);
  }

  lemma ParkHeld(s: State) returns (acts: seq<Action>, s': State)
    requires s.loop.pc == Running && s.consumer == Idle && s.box.held && s.box.signal && !s.box.closed
    ensures ExecFrom(s, acts) == Some(s')
    ensures s' == s.(consumer := Parked, box := s.box.(signal := false))
  {
    acts := [WaitEnter, WaitCheck, WaitWake, WaitCheck];
    s' := Apply(Apply(Apply(Apply(s, WaitEnter), WaitCheck), WaitWake), WaitCheck);
  }
}
