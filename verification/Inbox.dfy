/** The control frames the host writes to a container's stdin (frames.TypeUserMessage, TypeClear). */
module Frames {
  datatype Frame = UserMessage(id: string, content: string) | Clear

  datatype Message = Message(id: string, content: string)

  function Users(fs: seq<Frame>): seq<Message> {
    if fs == [] then [] else
    match fs[|fs| - 1]
    case UserMessage(id, content) => Users(fs[..|fs| - 1]) + [Message(id, content)]
    case Clear => Users(fs[..|fs| - 1])
  }

  function Clears(fs: seq<Frame>): nat {
    if fs == [] then 0 else Clears(fs[..|fs| - 1]) + if fs[|fs| - 1].Clear? then 1 else 0
  }

  lemma {:induction false} UsersAppend(a: seq<Frame>, b: seq<Frame>)
    ensures Users(a + b) == Users(a) + Users(b)
  {
    if b == [] {
      assert a + b == a;
    } else {
      assert (a + b)[..|a + b| - 1] == a + b[..|b| - 1];
      UsersAppend(a, b[..|b| - 1]);
    }
  }
}

/**
 The worker's inbox (internal/chatwork/inbox.go). The functions on Box say what each critical
 section does; the Epochs machine interleaves them and the class implements them.
 */
module Inbox {
  import opened Frames

  /** `signal` is the one-slot wake channel. */
  datatype Box<T> = Box(pending: seq<T>, closed: bool, held: bool, signal: bool)

  function Enqueue<T>(b: Box<T>, m: T): Box<T> { b.(pending := b.pending + [m]) }

  function Shut<T>(b: Box<T>): Box<T> { b.(closed := true) }

  function Ring<T>(b: Box<T>): Box<T> { b.(signal := true) }

  predicate Deliverable<T>(b: Box<T>) { !b.held && |b.pending| > 0 }

  function TakeAll<T>(b: Box<T>): Box<T> { if b.held then b else b.(pending := []) }

  function TakeFirst<T>(b: Box<T>): Box<T>
    requires Deliverable(b)
  {
    b.(pending := b.pending[1..])
  }

  function Hold<T>(b: Box<T>): Box<T> { b.(pending := [], held := true) }

  function Release<T>(b: Box<T>): Box<T> { b.(held := false) }

  predicate Spent<T>(b: Box<T>) { b.closed && |b.pending| == 0 }

  /** What Pump leaves in the queue: each clear drops all before it. */
  function Surviving(start: seq<Message>, fs: seq<Frame>): seq<Message> {
    if fs == [] then start else
    match fs[|fs| - 1]
    case UserMessage(id, content) => Surviving(start, fs[..|fs| - 1]) + [Message(id, content)]
    case Clear => []
  }

  /** Only what was said after the last clear survives it, in order. */
  lemma {:induction false} SurvivorsFollowTheLastClear(start: seq<Message>, before: seq<Frame>, after: seq<Frame>)
    requires Clears(after) == 0
    ensures Surviving(start, before + [Clear] + after) == Users(after)
  {
    var fs := before + [Clear] + after;
    if after == [] {
      assert fs[|fs| - 1] == Clear;
    } else {
      assert fs[..|fs| - 1] == before + [Clear] + after[..|after| - 1];
      SurvivorsFollowTheLastClear(start, before, after[..|after| - 1]);
    }
  }

  lemma {:induction false} NoClearDropsNothing(start: seq<Message>, fs: seq<Frame>)
    requires Clears(fs) == 0
    ensures Surviving(start, fs) == start + Users(fs)
  {
    if fs != [] { NoClearDropsNothing(start, fs[..|fs| - 1]); }
  }

  datatype Turn<T> = Delivered(msg: T) | InboxClosed | Park

  class ChatInbox<T> {
    var pending: seq<T>
    var closed: bool
    var held: bool
    var signal: bool

    ghost function Value(): Box<T>
      reads this
    {
      Box(pending, closed, held, signal)
    }

    constructor ()
      ensures Value() == Box([], false, false, false)
    {
      pending, closed, held, signal := [], false, false, false;
    }

    method Ping()
      modifies this`signal
      ensures Value() == Ring(old(Value()))
    {
      if !signal { signal := true; }
    }

    method Push(m: T)
      modifies this`pending, this`signal
      ensures Value() == Ring(Enqueue(old(Value()), m))
    {
      pending := pending + [m];
      Ping();
    }

    method CloseInbox()
      modifies this`closed, this`signal
      ensures Value() == Ring(Shut(old(Value())))
    {
      closed := true;
      Ping();
    }

    method Drain() returns (out: seq<T>)
      modifies this`pending
      ensures out == if old(held) then [] else old(pending)
      ensures Value() == TakeAll(old(Value()))
    {
      if held { return []; }
      out := pending;
      pending := [];
    }

    /** One turn of Wait's loop, up to the select it parks in. */
    method WaitTurn() returns (t: Turn<T>)
      modifies this`pending
      ensures if Deliverable(old(Value()))
              then t == Delivered(old(pending)[0]) && Value() == TakeFirst(old(Value()))
              else t == (if old(closed) then InboxClosed else Park) && Value() == old(Value())
    {
      if !held && |pending| > 0 {
        t := Delivered(pending[0]);
        pending := pending[1..];
        return;
      }
      t := if closed then InboxClosed else Park;
    }

    method OnClear()
      modifies this`pending, this`held
      ensures Value() == Hold(old(Value()))
    {
      pending := [];
      held := true;
    }

    method ReleaseClear() returns (isClosed: bool)
      modifies this`held, this`signal
      ensures isClosed == (old(closed) && old(pending) == [])
      ensures Value() == Ring(Release(old(Value())))
    {
      held := false;
      isClosed := closed && |pending| == 0;
      Ping();
    }
  }

  /** Pump over a whole input, with nobody else at work: `slot` is the one-slot clear channel. */
  method Pump(box: ChatInbox<Message>, frames: seq<Frame>, slot: bool) returns (slot': bool)
    modifies box
    ensures box.pending == Surviving(old(box.pending), frames)
    ensures box.held == (old(box.held) || Clears(frames) > 0)
    ensures slot' == (slot || Clears(frames) > 0)
    ensures box.closed && box.signal
  {
    slot' := slot;
    for i := 0 to |frames|
      invariant box.pending == Surviving(old(box.pending), frames[..i])
      invariant box.held == (old(box.held) || Clears(frames[..i]) > 0)
      invariant slot' == (slot || Clears(frames[..i]) > 0)
    {
      assert frames[..i + 1][..i] == frames[..i];
      match frames[i] {
        case UserMessage(id, content) => box.Push(Message(id, content));
        case Clear =>
          box.OnClear();
          if !slot' { slot' := true; }
      }
    }
    assert frames[..|frames|] == frames;
    box.CloseInbox();
  }
}
