/**
 The host side of a chat session's life, as a step machine: any number of /chat/start handlers
 (internal/webhook/chat.go) running DockerExecutor.Launch, one supervisor and one output pump per
 started container (internal/executor/docker.go), Stop/Kill callers, and graceful shutdown
 (internal/cli/serve.go). Every access to shared state is one step; what Docker, the file system
 and the LLM proxy answer is part of the step's label.

 Everything shared is keyed by session ID and session IDs are reused. A Life is one /chat/start
 request; the container it may create carries the same number. Resources remember the life that
 made them, which the program itself does not: that is what the properties are about.
 */
module Lifecycle {
  import opened Options
  import opened Runs
  import opened Tracking
  import opened SessionIds

  type Sid = string
  type Life = nat

  // ---------------------------------------------------------------- state

  /** The secrets handleChatStart registers, in the order it registers them. */
  datatype KeyKind = GitBearer | McpKey | LlmToken | LlmKey | OverrideKey

  const KEY_ORDER: seq<KeyKind> := [GitBearer, McpKey, LlmToken, LlmKey, OverrideKey]

  datatype Secret = Secret(life: Life, kind: KeyKind)

  /** `hasEndpoint`: an LLM endpoint is given and the proxy that would stand in for it is configured.
      `blank` lists the secrets that are empty strings, which AddSessionKey ignores. */
  datatype Request = Request(sid: Sid, hasGit: bool, hasEndpoint: bool, resume: bool, blank: set<KeyKind>)

  /** handleChatStart with Launch inlined. Untrack .. RemoveDir is the failure path. */
  datatype StartPc =
    | CapacityCheck | ConflictCheck | Mkdir | WriteResume | RegisterLlm | AddKeys(done: nat)
    | Pull | Create | Attach | Admission | StartContainer | Spawn
    | Untrack | DropContainer | ForgetKeys | RevokeLlm | RemoveDir
    | Returned

  datatype Container = Absent | Created | Running | Exited | Gone

  /** waitAndCleanup; ExitDir .. ExitToken is onExit. */
  datatype SupPc =
    | Unspawned | Waiting | Removing | Labelling | Draining
    | ExitDir | ExitLock | ExitKeys | ExitToken | Releasing | Finished

  datatype PumpPc = PumpIdle | Copying | FlushOut | FlushErr | PumpDone

  datatype LifeRec = LifeRec(
    req: Request, pc: StartPc, code: nat, container: Container,
    sup: SupPc, pump: PumpPc, timedOut: bool)

  /** A run directory: who made it and whose transcript it holds. */
  datatype Dir = Dir(maker: Life, resume: Option<Life>)

  /** One onLog call, with the keys registered for its session at that moment. */
  datatype LogLine = LogLine(life: Life, masked: set<Secret>, exiting: bool, timedOut: bool)

  datatype KillOutcome = AlreadyGone | Killed(life: Life) | Refused(life: Life)

  datatype ShutPc =
    | Serving | DrainOn | HttpDown | Pick
    | KillGet(sid: Sid) | KillReason(sid: Sid, life: Life) | KillSend(sid: Sid, life: Life) | SweepDir(sid: Sid)
    | Stopped

  /** gracefulShutdown. `clean`: the HTTP shutdown returned with no handler left running. */
  datatype Shutdown = Shutdown(
    pc: ShutPc, clean: bool, snapshot: map<Sid, Life>, todo: set<Sid>,
    outcomes: map<Sid, KillOutcome>, swept: set<Sid>)

  /** Which session IDs are let in: those the guard accepts, or of these only the ones that name a
      run dir of their own. */
  datatype Ids = SafeIds | OwnDirs

  /** What the lives share: the tracker, run dirs, live LLM tokens and registered redaction keys.
      `reasonLife` is the run that was tracked when the recorded reason was set. */
  datatype Shared = Shared(
    tracker: Registry, reasonLife: map<Sid, Life>,
    dirs: map<Sid, Dir>, tokens: map<Sid, Life>, keys: map<Sid, set<Secret>>)

  /** `labels` maps a supervisor to the reasonLife of the reason it read. */
  datatype State = State(
    max: nat, window: set<StartPc>, ids: Ids, sh: Shared, lives: map<Life, LifeRec>,
    labels: map<Life, Life>, log: seq<LogLine>, shut: Shutdown)

  /** What callers see to: while a start of a session is at one of the points of `window`, no other
      start of that session passes the conflict check; and `ids`. The program itself sees to
      neither: it is Config(max, {}, SafeIds). */
  datatype Config = Config(max: nat, window: set<StartPc>, ids: Ids)

  function Init(c: Config): State {
    State(c.max, c.window, c.ids, Shared(Registry(map[], map[]), map[], map[], map[], map[]), map[], map[], [],
          Shutdown(Serving, false, map[], {}, map[], {}))
  }

  function KeysOf(sh: Shared, sid: Sid): set<Secret> {
    if sid in sh.keys then sh.keys[sid] else {}
  }

  // ---------------------------------------------------------------- steps

  /** `ok` is the answer of the foreign call a step makes, if it makes one. */
  datatype Action =
    | Begin(life: Life, req: Request)
    | Handler(life: Life, ok: bool)
    | ContainerExits(life: Life)
    | Supervisor(life: Life, alt: bool)   // alt: the wait failed, or the drain bound fired
    | PumpStep(life: Life, emits: bool)
    | Reason(sid: Sid, why: string)       // SetReason by Stop or Kill
    | BeginDrain | HttpShutdown | ListRuns | PickRun(sid: Sid) | Sweep(ok: bool)

  predicate Admitted(ids: Ids, sid: Sid) {
    SafeId(sid) && (ids.OwnDirs? ==> OwnDir(sid))
  }

  predicate InHandler(pc: StartPc) {
    !pc.CapacityCheck? && !pc.ConflictCheck? && !pc.Returned?
  }

  ghost predicate MayPassConflictCheck(s: State, h: Life) {
    forall g :: g in s.lives && g != h && h in s.lives && s.lives[g].req.sid == s.lives[h].req.sid
      ==> s.lives[g].pc !in s.window
  }

  ghost predicate Enabled(s: State, a: Action) {
    match a
    case Begin(h, req) => h !in s.lives && s.shut.pc == Serving && Admitted(s.ids, req.sid)
    case Handler(h, ok) =>
      && h in s.lives && s.lives[h].pc != Returned
      && (s.lives[h].pc == ConflictCheck ==> MayPassConflictCheck(s, h))
    case ContainerExits(h) => h in s.lives && s.lives[h].container == Running
    case Supervisor(h, alt) =>
      && h in s.lives && s.lives[h].sup != Unspawned && s.lives[h].sup != Finished
      && (s.lives[h].sup == Waiting ==> alt || s.lives[h].container == Exited)
      && (s.lives[h].sup == Draining ==> alt || s.lives[h].pump == PumpDone)
    case PumpStep(h, emits) =>
      h in s.lives && s.lives[h].pump != PumpIdle && s.lives[h].pump != PumpDone
    case Reason(sid, why) => true
    case BeginDrain => s.shut.pc == Serving
    case HttpShutdown => s.shut.pc == DrainOn
    case ListRuns => s.shut.pc == HttpDown
    case PickRun(sid) => s.shut.pc == Pick && (s.shut.todo != {} ==> sid in s.shut.todo)
    case Sweep(ok) =>
      s.shut.pc.KillGet? || s.shut.pc.KillReason? || s.shut.pc.KillSend? || s.shut.pc.SweepDir?
  }

  /** What a step does to the shared state. */
  datatype Effect =
    | Nothing
    | MakeDir | FillDir | DropDir
    | GrantToken | DropToken
    | AddKey(kind: KeyKind) | DropKeys
    | AdmitRun | DropRun

  function Perform(sh: Shared, max: nat, h: Life, sid: Sid, e: Effect): Shared {
    match e
    case Nothing => sh
    case MakeDir => if sid in sh.dirs then sh else sh.(dirs := sh.dirs[sid := Dir(h, None)])
    case FillDir =>
      if sid in sh.dirs then sh.(dirs := sh.dirs[sid := sh.dirs[sid].(resume := Some(h))]) else sh
    case DropDir => sh.(dirs := RemoveRunDir(sh.dirs, sid))
    case GrantToken => sh.(tokens := sh.tokens[sid := h])
    case DropToken => sh.(tokens := sh.tokens - {sid})
    case AddKey(kind) => sh.(keys := sh.keys[sid := KeysOf(sh, sid) + {Secret(h, kind)}])
    case DropKeys => sh.(keys := sh.keys - {sid})
    case AdmitRun => sh.(tracker := Admit(sh.tracker, max, Run(h, sid)))
    case DropRun => sh.(tracker := Remove(sh.tracker, sid), reasonLife := sh.reasonLife - {sid})
  }

  /** What a step reads of the shared state. */
  datatype Seen = Seen(full: bool, tracked: bool, admits: bool, hasDir: bool)

  function Look(s: State, h: Life, sid: Sid): Seen {
    Seen(|s.sh.tracker.byKey| >= s.max, sid in s.sh.tracker.byKey,
         CanAdmit(s.sh.tracker, s.max, Run(h, sid)), sid in s.sh.dirs)
  }

  function Fail(l: LifeRec, pc: StartPc, code: nat): (LifeRec, Effect) {
    (l.(pc := pc, code := code), Nothing)
  }

  function Go(l: LifeRec, pc: StartPc, e: Effect): (LifeRec, Effect) {
    (l.(pc := pc), e)
  }

  /** handleChatStart and Launch, step by step. */
  function HandlerNext(l: LifeRec, seen: Seen, ok: bool): (LifeRec, Effect) {
    match l.pc
    case CapacityCheck => if seen.full then Fail(l, Returned, 429) else Go(l, ConflictCheck, Nothing)
    case ConflictCheck =>
      if seen.tracked then Fail(l, Returned, 409)
      else if !l.req.hasGit || !l.req.hasEndpoint then Fail(l, Returned, 500)
      else Go(l, Mkdir, Nothing)
    case Mkdir =>
      if !ok then Fail(l, Returned, 500)
      else Go(l, if l.req.resume then WriteResume else RegisterLlm, MakeDir)
    case WriteResume =>
      // A failed write may still have left part of the transcript in the directory.
      if ok && seen.hasDir then Go(l, RegisterLlm, FillDir)
      else (l.(pc := RemoveDir, code := 500), FillDir)
    case RegisterLlm => if ok then Go(l, AddKeys(0), GrantToken) else Fail(l, RemoveDir, 500)
    case AddKeys(done) =>
      if done >= |KEY_ORDER| then Go(l, Pull, Nothing)
      else Go(l, if done + 1 < |KEY_ORDER| then AddKeys(done + 1) else Pull,
              if KEY_ORDER[done] in l.req.blank then Nothing else AddKey(KEY_ORDER[done]))
    case Pull => if ok then Go(l, Create, Nothing) else Fail(l, ForgetKeys, 502)
    case Create =>
      if ok then Go(l.(container := Created), Attach, Nothing) else Fail(l, ForgetKeys, 502)
    case Attach => if ok then Go(l, Admission, Nothing) else Fail(l, DropContainer, 502)
    case Admission => if seen.admits then Go(l, StartContainer, AdmitRun) else Fail(l, DropContainer, 429)
    case StartContainer =>
      if ok then Go(l.(container := Running), Spawn, Nothing) else Fail(l, Untrack, 502)
    case Spawn => Go(l.(code := 202, sup := Waiting, pump := Copying), Returned, Nothing)
    case Untrack => Go(l, DropContainer, DropRun)
    case DropContainer => Go(l.(container := Gone), ForgetKeys, Nothing)
    case ForgetKeys => Go(l, RevokeLlm, DropKeys)
    case RevokeLlm => Go(l, RemoveDir, DropToken)
    case RemoveDir => Go(l, Returned, DropDir)
    case Returned => (l, Nothing)
  }

  /** waitAndCleanup, step by step. */
  function SupervisorNext(l: LifeRec, alt: bool): (LifeRec, Effect) {
    match l.sup
    case Waiting => (l.(sup := Removing), Nothing)
    case Removing => (l.(sup := Labelling, container := Gone), Nothing)
    case Labelling => (l.(sup := Draining), Nothing)
    case Draining => (l.(sup := ExitDir, timedOut := alt), Nothing)
    case ExitDir => (l.(sup := ExitLock), DropDir)
    case ExitLock => (l.(sup := ExitKeys), Nothing)
    case ExitKeys => (l.(sup := ExitToken), DropKeys)
    case ExitToken => (l.(sup := Releasing), DropToken)
    case Releasing => (l.(sup := Finished), DropRun)
    case Unspawned => (l, Nothing)
    case Finished => (l, Nothing)
  }

  function Commit(s: State, h: Life, next: (LifeRec, Effect)): State {
    s.(lives := s.lives[h := next.0], sh := Perform(s.sh, s.max, h, next.0.req.sid, next.1))
  }

  function HandlerStep(s: State, h: Life, ok: bool): State
    requires h in s.lives
  {
    Commit(s, h, HandlerNext(s.lives[h], Look(s, h, s.lives[h].req.sid), ok))
  }

  function SupervisorStep(s: State, h: Life, alt: bool): State
    requires h in s.lives
  {
    var l := s.lives[h];
    var s' := Commit(s, h, SupervisorNext(l, alt));
    if l.sup == Labelling && l.req.sid in s.sh.reasonLife
    then s'.(labels := s.labels[h := s.sh.reasonLife[l.req.sid]]) else s'
  }

  function NoteReason(sh: Shared, sid: Sid, why: string): Shared {
    sh.(tracker := SetReason(sh.tracker, sid, why),
        reasonLife := if sid in sh.tracker.byKey
                      then sh.reasonLife[sid := sh.tracker.byKey[sid].containerId] else sh.reasonLife)
  }

  predicate OnExitBegun(sup: SupPc) {
    sup.ExitDir? || sup.ExitLock? || sup.ExitKeys? || sup.ExitToken? || sup.Releasing? || sup.Finished?
  }

  function PumpNext(s: State, h: Life, emits: bool): State
    requires h in s.lives
  {
    var l := s.lives[h];
    var next := match l.pump
      case Copying => if emits then Copying else FlushOut
      case FlushOut => FlushErr
      case FlushErr => PumpDone
      case _ => l.pump;
    var line := LogLine(h, KeysOf(s.sh, l.req.sid), OnExitBegun(l.sup), l.timedOut);
    s.(lives := s.lives[h := l.(pump := next)], log := if emits then s.log + [line] else s.log)
  }

  function Dying(s: State, h: Life): map<Life, LifeRec> {
    if h in s.lives && s.lives[h].container == Running
    then s.lives[h := s.lives[h].(container := Exited)] else s.lives
  }

  /** The kill loop of gracefulShutdown: Kill (Get, SetReason, ContainerKill), then RemoveAll. */
  function SweepStep(s: State, ok: bool): State {
    var d := s.shut;
    match d.pc
    case KillGet(sid) =>
      if sid in s.sh.tracker.byKey then
        s.(shut := d.(pc := KillReason(sid, s.sh.tracker.byKey[sid].containerId)))
      else s.(shut := d.(pc := SweepDir(sid), outcomes := d.outcomes[sid := AlreadyGone]))
    case KillReason(sid, life) =>
      s.(sh := NoteReason(s.sh, sid, "killed"), shut := d.(pc := KillSend(sid, life)))
    case KillSend(sid, life) =>
      if ok then
        s.(lives := Dying(s, life), shut := d.(pc := SweepDir(sid), outcomes := d.outcomes[sid := Killed(life)]))
      else s.(shut := d.(pc := SweepDir(sid), outcomes := d.outcomes[sid := Refused(life)]))
    case SweepDir(sid) =>
      s.(sh := s.sh.(dirs := RemoveRunDir(s.sh.dirs, sid)),
         shut := d.(pc := Pick, todo := d.todo - {sid}, swept := d.swept + {sid}))
    case _ => s
  }

  predicate AllReturned(s: State) {
    forall h :: h in s.lives ==> s.lives[h].pc == Returned
  }

  function Apply(s: State, a: Action): State
    requires Enabled(s, a)
  {
    match a
    case Begin(h, req) =>
      s.(lives := s.lives[h := LifeRec(req, CapacityCheck, 0, Absent, Unspawned, PumpIdle, false)])
    case Handler(h, ok) => HandlerStep(s, h, ok)
    case ContainerExits(h) => s.(lives := Dying(s, h))
    case Supervisor(h, alt) => SupervisorStep(s, h, alt)
    case PumpStep(h, emits) => PumpNext(s, h, emits)
    case Reason(sid, why) => s.(sh := NoteReason(s.sh, sid, why))
    case BeginDrain => s.(shut := s.shut.(pc := DrainOn))
    case HttpShutdown => s.(shut := s.shut.(pc := HttpDown, clean := AllReturned(s)))
    case ListRuns =>
      s.(shut := s.shut.(pc := Pick, todo := s.sh.tracker.byKey.Keys,
         snapshot := map sid | sid in s.sh.tracker.byKey :: s.sh.tracker.byKey[sid].containerId))
    case PickRun(sid) =>
      s.(shut := s.shut.(pc := if s.shut.todo == {} then Stopped else KillGet(sid)))
    case Sweep(ok) => SweepStep(s, ok)
  }

  ghost function Next(s: State, a: Action): Option<State> {
    if Enabled(s, a) then Some(Apply(s, a)) else None
  }

  ghost predicate Reaches(c: Config, acts: seq<Action>, s: State) {
    After(Next, Init(c), acts) == Some(s)
  }

  lemma Extend(c: Config, acts: seq<Action>, s: State, a: Action)
    requires Reaches(c, acts, s) && Enabled(s, a)
    ensures Reaches(c, acts + [a], Apply(s, a))
  {
    Then(Next, Init(c), acts, s, [a]);
    One(Next, s, a);
  }

  lemma LastStep(c: Config, acts: seq<Action>, s: State) returns (before: State, a: Action)
    requires Reaches(c, acts, s) && acts != []
    ensures Reaches(c, acts[..|acts| - 1], before) && Next(before, a) == Some(s)
  {
    Last(Next, Init(c), acts);
    before, a := After(Next, Init(c), acts[..|acts| - 1]).value, acts[|acts| - 1];
  }

  // ---------------------------------------------------------------- what a life should hold

  predicate Supervised(sup: SupPc) {
    !sup.Unspawned? && !sup.Finished?
  }

  /** The life that the tracker entry belongs to: a Launch past admission, or a supervisor before
      its Remove. */
  predicate Owns(l: LifeRec) {
    l.pc.StartContainer? || l.pc.Spawn? || l.pc.Untrack? || Supervised(l.sup)
  }

  predicate Active(l: LifeRec) {
    InHandler(l.pc) || Supervised(l.sup)
  }

  /** The container has been started and its OnExit has not begun. */
  predicate Live(l: LifeRec) {
    l.pc.Spawn? || (Supervised(l.sup) && !OnExitBegun(l.sup))
  }

  predicate HoldsDir(l: LifeRec) {
    (InHandler(l.pc) && !l.pc.Mkdir?) || (Supervised(l.sup) && !OnExitBegun(l.sup)) || l.sup.ExitDir?
  }

  function Transcript(h: Life, l: LifeRec): Option<Life> {
    if l.req.resume && !l.pc.WriteResume? then Some(h) else None
  }

  predicate HoldsToken(l: LifeRec) {
    || l.pc.AddKeys? || l.pc.Pull? || l.pc.Create? || l.pc.Attach? || l.pc.Admission?
    || l.pc.StartContainer? || l.pc.Spawn? || l.pc.Untrack? || l.pc.DropContainer?
    || l.pc.ForgetKeys? || l.pc.RevokeLlm?
    || (Supervised(l.sup) && !l.sup.Releasing?)
  }

  /** How many of the five keys the life has got to registering. */
  function KeysDone(l: LifeRec): nat {
    if l.pc.AddKeys? then l.pc.done
    else if HoldsToken(l) && !l.pc.RevokeLlm? && !l.sup.ExitToken? then |KEY_ORDER|
    else 0
  }

  function Secrets(h: Life, l: LifeRec, done: nat): set<Secret> {
    set i | 0 <= i < |KEY_ORDER| && i < done && KEY_ORDER[i] !in l.req.blank :: Secret(h, KEY_ORDER[i])
  }

  function AllSecrets(h: Life, l: LifeRec): set<Secret> {
    Secrets(h, l, |KEY_ORDER|)
  }

  /** All the secrets of a request that are not empty, of every kind. */
  lemma AllSecretsMeaning(h: Life, l: LifeRec, g: Life, kind: KeyKind)
    ensures Secret(g, kind) in AllSecrets(h, l) <==> g == h && kind !in l.req.blank
  {
    var i := match kind case GitBearer => 0 case McpKey => 1 case LlmToken => 2 case LlmKey => 3 case OverrideKey => 4;
    assert KEY_ORDER[i] == kind;
  }

  ghost predicate Untouched(s: State, sid: Sid) {
    sid !in s.sh.dirs && sid !in s.sh.tokens && KeysOf(s.sh, sid) == {}
  }

  /** Nobody is starting, running or cleaning up this session. */
  ghost predicate Idle(s: State, sid: Sid) {
    && sid !in s.sh.tracker.byKey
    && forall h :: h in s.lives && s.lives[h].req.sid == sid ==> !InHandler(s.lives[h].pc)
  }

  ghost predicate IdleAreUntouched(s: State) {
    forall sid :: Idle(s, sid) ==> Untouched(s, sid)
  }

  /** What a session has on the host. */
  datatype Kind = OfKeys | OfToken | OfDir

  /** The started container has its own. Shutdown alone may take a run dir early. */
  ghost predicate HasOwn(s: State, h: Life, k: Kind)
    requires h in s.lives
  {
    var l := s.lives[h];
    var sid := l.req.sid;
    match k
    case OfKeys => KeysOf(s.sh, sid) == AllSecrets(h, l)
    case OfToken => sid in s.sh.tokens && s.sh.tokens[sid] == h
    case OfDir => sid in s.shut.swept || (sid in s.sh.dirs && s.sh.dirs[sid] == Dir(h, Transcript(h, l)))
  }

  ghost predicate LiveHave(s: State, k: Kind) {
    forall h :: h in s.lives && Live(s.lives[h]) ==> HasOwn(s, h, k)
  }

  /** Every started container has its own run dir, its own live token and all its keys. */
  ghost predicate LiveHoldTheirOwn(s: State) {
    LiveHave(s, OfKeys) && LiveHave(s, OfToken) && LiveHave(s, OfDir)
  }

  ghost predicate Isolated(s: State) {
    LiveHoldTheirOwn(s) && IdleAreUntouched(s)
  }

  // ---------------------------------------------------------------- when starts are kept apart

  /** The points at which a start may still come to touch what another start of its session would
      use: up to the last step of its cleanup that does. Where it has the tracker entry, the
      conflict check itself keeps others out. */
  function Needed(k: Kind): set<StartPc>
    decreases k.OfDir?, k.OfToken?
  {
    match k
    case OfKeys =>
      {Mkdir, WriteResume, RegisterLlm, AddKeys(0), AddKeys(1), AddKeys(2), AddKeys(3), AddKeys(4),
       Pull, Create, Attach, Admission, DropContainer, ForgetKeys}
    case OfToken => Needed(OfKeys) + {RevokeLlm}
    case OfDir => Needed(OfToken) + {RemoveDir}
  }

  /** Callers see to enough for this. */
  predicate Apart(c: Config, k: Kind) {
    Needed(k) <= c.window && (k.OfDir? ==> c.ids.OwnDirs?)
  }

  function ConfigOf(s: State): Config {
    Config(s.max, s.window, s.ids)
  }
}
