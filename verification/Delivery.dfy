/**
 Message delivery to running sessions, as a step machine: any number of /message and /chat/end
 handlers (internal/webhook/chat.go), the per-session mutex map of stdinLock and DropSession
 (internal/webhook/handler.go), and the tracker's comings and goings. The dedup cache is a set with
 an atomic check-and-record; a frame write succeeds or fails as a whole.
 */
module Delivery {
  import opened Options
  import opened Runs
  import opened Frames

  type Sid = string
  type Rid = nat      // a run: one container's life
  type Hid = nat      // a handler: one HTTP request
  type Mutex = nat

  // ---------------------------------------------------------------- what the lifecycle does

  /** The tracker, and the runs whose OnExit has got past DropSession's deletion of the mutex;
      `known` is every run ever admitted, with its session. */
  datatype Env = Env(tracked: map<Sid, Rid>, dropped: set<Rid>, known: map<Rid, Sid>)

  datatype EnvStep = Admit(sid: Sid, run: Rid) | Drop(sid: Sid) | Untrack(sid: Sid)

  ghost predicate EnvEnabled(e: Env, a: EnvStep) {
    match a
    case Admit(sid, run) => sid !in e.tracked && run !in e.known
    case Drop(sid) => sid in e.tracked && e.tracked[sid] !in e.dropped
    case Untrack(sid) => sid in e.tracked
  }

  function EnvNext(e: Env, a: EnvStep): Env
    requires EnvEnabled(e, a)
  {
    match a
    case Admit(sid, run) => Env(e.tracked[sid := run], e.dropped, e.known[run := sid])
    case Drop(sid) => e.(dropped := e.dropped + {e.tracked[sid]})
    case Untrack(sid) => e.(tracked := e.tracked - {sid})
  }

  /** The run still has its mutex: tracked, and its DropSession has not come. */
  predicate Live(e: Env, sid: Sid, run: Rid) {
    sid in e.tracked && e.tracked[sid] == run && run !in e.dropped
  }

  // ---------------------------------------------------------------- state

  datatype Request = Send(sid: Sid, id: string, content: string) | End(sid: Sid)

  /** Critical section: CheckDedup, Writing, Undo, Closing and Unlock. */
  datatype Pc =
    | Lookup | NeedMutex | WantLock
    | CheckDedup | Writing | Undo(code: nat) | Closing | Unlock(code: nat)
    | Replied(code: nat)

  /** `mutex`: what stdinLock returned, once it has. `era`: how many DropSessions of the session came
      before this handler's stdinLock. */
  datatype Handler = Handler(req: Request, pc: Pc, run: Rid, mutex: Option<Mutex>, era: nat)

  /** One frame written to a run's stdin. */
  datatype Written = Written(sender: Hid, run: Rid, sid: Sid, id: string, frame: Frame)

  datatype State = State(
    env: Env,
    mutexes: map<Sid, Mutex>, nextMutex: Mutex, holders: map<Mutex, Hid>,
    eras: map<Sid, nat>,
    dedup: set<(Sid, string)>,
    handlers: map<Hid, Handler>,
    writes: seq<Written>)

  function Init(): State {
    State(Env(map[], {}, map[]), map[], 0, map[], map[], {}, map[], [])
  }

  function MutexOf(r: Handler): Mutex {
    if r.mutex.Some? then r.mutex.value else 0
  }

  function EraOf(s: State, sid: Sid): nat {
    if sid in s.eras then s.eras[sid] else 0
  }

  /** A /clear goes out as a clear frame, which carries no message ID. */
  function FrameOf(req: Request): Frame
    requires req.Send?
  {
    if req.content == "/clear" then Clear else UserMessage(req.id, req.content)
  }

  datatype WriteResult = Ok | TooLarge | Failed

  // ---------------------------------------------------------------- steps

  datatype Action =
    | Arrive(h: Hid, req: Request)
    | Step(h: Hid, result: WriteResult)     // result: what the write of this step does, if any
    | Lifecycle(step: EnvStep)

  ghost predicate Enabled(s: State, a: Action) {
    match a
    case Arrive(h, _) => h !in s.handlers
    case Step(h, _) =>
      && h in s.handlers && !s.handlers[h].pc.Replied?
      && (s.handlers[h].pc == WantLock ==> MutexOf(s.handlers[h]) !in s.holders)
    case Lifecycle(e) => EnvEnabled(s.env, e)
  }

  function Key(req: Request): (Sid, string)
    requires req.Send?
  {
    (req.sid, req.id)
  }

  function Put(s: State, h: Hid, r: Handler): State {
    s.(handlers := s.handlers[h := r])
  }

  /** LoadOrStore on the mutex map. */
  function TakeMutex(s: State, h: Hid, r: Handler): State {
    var sid := r.req.sid;
    var m := if sid in s.mutexes then s.mutexes[sid] else s.nextMutex;
    Put(s, h, r.(pc := WantLock, mutex := Some(m), era := EraOf(s, sid)))
    .(mutexes := s.mutexes[sid := m], nextMutex := if sid in s.mutexes then s.nextMutex else s.nextMutex + 1)
  }

  function HandlerStep(s: State, h: Hid, result: WriteResult): State
    requires h in s.handlers
  {
    var r := s.handlers[h];
    match r.pc
    case Lookup =>
      if r.req.sid in s.env.tracked then Put(s, h, r.(pc := NeedMutex, run := s.env.tracked[r.req.sid]))
      else Put(s, h, r.(pc := Replied(if r.req.Send? then 404 else 200)))
    case NeedMutex => TakeMutex(s, h, r)
    case WantLock =>
      Put(s.(holders := s.holders[MutexOf(r) := h]), h, r.(pc := if r.req.Send? then CheckDedup else Closing))
    case CheckDedup =>
      if r.req.End? then s
      else if r.req.id != "" && Key(r.req) in s.dedup then Put(s, h, r.(pc := Unlock(200)))
      else Put(s.(dedup := if r.req.id != "" then s.dedup + {Key(r.req)} else s.dedup), h, r.(pc := Writing))
    case Writing =>
      if r.req.End? then s
      else match result {
        case Ok =>
          Put(s.(writes := s.writes + [Written(h, r.run, r.req.sid, r.req.id, FrameOf(r.req))]),
              h, r.(pc := Unlock(202)))
        case TooLarge => Put(s, h, r.(pc := Undo(413)))
        case Failed => Put(s, h, r.(pc := Undo(500)))
      }
    case Undo(code) =>
      if r.req.End? then s
      else Put(s.(dedup := s.dedup - {Key(r.req)}), h, r.(pc := Unlock(code)))
    case Closing => Put(s, h, r.(pc := Unlock(202)))
    case Unlock(code) => Put(s.(holders := s.holders - {MutexOf(r)}), h, r.(pc := Replied(code)))
    case Replied(_) => s
  }

  function LifecycleStep(s: State, e: EnvStep): State
    requires EnvEnabled(s.env, e)
  {
    var s' := s.(env := EnvNext(s.env, e));
    if e.Drop? then s'.(mutexes := s.mutexes - {e.sid}, eras := s.eras[e.sid := EraOf(s, e.sid) + 1])
    else s'
  }

  function Apply(s: State, a: Action): State
    requires Enabled(s, a)
  {
    match a
    case Arrive(h, req) => Put(s, h, Handler(req, Lookup, 0, None, 0))
    case Step(h, result) => HandlerStep(s, h, result)
    case Lifecycle(e) => LifecycleStep(s, e)
  }

  ghost function Next(s: State, a: Action): Option<State> {
    if Enabled(s, a) then Some(Apply(s, a)) else None
  }

  ghost function ExecFrom(s: State, acts: seq<Action>): Option<State> {
    After(Next, s, acts)
  }

  ghost predicate Reaches(acts: seq<Action>, s: State) {
    ExecFrom(Init(), acts) == Some(s)
  }

  // ---------------------------------------------------------------- vocabulary

  predicate Critical(r: Handler) {
    r.pc.CheckDedup? || r.pc.Writing? || r.pc.Undo? || r.pc.Closing? || r.pc.Unlock?
  }

  /** At work on the run's stdin. */
  predicate UsesStdin(r: Handler) {
    r.pc.Writing? || r.pc.Closing?
  }

  /** Recorded in the dedup cache, not yet known to be written or not. */
  predicate Recording(r: Handler) {
    r.req.Send? && (r.pc.Writing? || r.pc.Undo?)
  }

  predicate IsKey(s: State, i: int, key: (Sid, string)) {
    0 <= i < |s.writes| && s.writes[i].sid == key.0 && s.writes[i].id == key.1
  }

  ghost predicate WrittenKey(s: State, key: (Sid, string)) {
    exists i :: IsKey(s, i, key)
  }
}
