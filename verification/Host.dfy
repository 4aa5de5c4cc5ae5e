/**
 The host's own code, run with nobody else at work: handleChatStart (internal/webhook/chat.go) with
 Launch, waitAndCleanup with the OnExit hook, Stop and Kill (internal/executor/docker.go), and the kill
 loop of gracefulShutdown (internal/cli/serve.go). HostSteps shows that the Lifecycle machine's
 steps, taken in a row, come to the same end.
 */
module Host {
  import opened Options
  import opened Tracking
  import opened SessionIds
  import opened Lifecycle

  /** What Docker, the file system and the LLM proxy answer to one start. */
  datatype World = World(
    mkdir: bool, resume: bool, register: bool,
    pull: bool, create: bool, attach: bool, start: bool)

  datatype LaunchResult = Launched | Failed | NoCapacity

  // ---------------------------------------------------------------- what a start and an exit do

  function Requested(req: Request): LifeRec {
    LifeRec(req, CapacityCheck, 0, Absent, Unspawned, PumpIdle, false)
  }

  /** No start, container or cleanup has left anything under this session ID. */
  ghost predicate Clean(sh: Shared, sid: Sid) {
    && sid !in sh.tracker.byKey && sid !in sh.tracker.reason && sid !in sh.reasonLife
    && sid !in sh.dirs && sid !in sh.tokens && sid !in sh.keys
  }

  /** The answer to a start nobody interferes with. */
  function StartCode(sh: Shared, max: nat, req: Request, w: World): nat {
    if !SafeId(req.sid) then 400
    else if |sh.tracker.byKey| >= max then 429
    else if req.sid in sh.tracker.byKey then 409
    else if !req.hasGit || !req.hasEndpoint || !w.mkdir || (req.resume && !w.resume) || !w.register then 500
    else if !w.pull || !w.create || !w.attach || !w.start then 502
    else 202
  }

  /** The answers outright: which condition each stands for, in the order they are looked at. */
  lemma StartCodeMeaning(sh: Shared, max: nat, req: Request, w: World)
    ensures var code := StartCode(sh, max, req, w);
            && (code == 400 <==>
                  || req.sid == ""
                  || (exists i :: 0 <= i < |req.sid| && (req.sid[i] == '/' || req.sid[i] == '\\'))
                  || (exists i :: 0 <= i < |req.sid| - 1 && req.sid[i] == '.' && req.sid[i + 1] == '.'))
            && (code == 429 <==> code != 400 && |sh.tracker.byKey| >= max)
            && (code == 409 <==> code !in {400, 429} && req.sid in sh.tracker.byKey)
            && (code == 500 <==>
                  code !in {400, 429, 409}
                  && !(req.hasGit && req.hasEndpoint && w.mkdir && (req.resume ==> w.resume) && w.register))
            && (code == 502 <==>
                  code !in {400, 429, 409, 500} && !(w.pull && w.create && w.attach && w.start))
            && code in {400, 429, 409, 500, 502, 202}
  {
    RefusedIds(req.sid);
    if req.sid != "" && '/' !in req.sid { BaseAddsNothing(req.sid); }
  }

  /** Turned away before any side effect. */
  predicate TurnedAway(sh: Shared, max: nat, req: Request, w: World) {
    || !SafeId(req.sid) || |sh.tracker.byKey| >= max || req.sid in sh.tracker.byKey
    || !req.hasGit || !req.hasEndpoint || !w.mkdir
  }

  /** The LLM proxy has registered the session. */
  predicate Registers(req: Request, w: World) {
    (req.resume ==> w.resume) && w.register
  }

  /** The host after a start nobody interferes with, whatever it held under the session ID before. */
  function AfterStart(sh: Shared, max: nat, h: Life, req: Request, w: World): Shared {
    if StartCode(sh, max, req, w) == 202 then Provisioned(Opened(sh, h, req.sid), max, h, req)
    else if TurnedAway(sh, max, req, w) then sh
    else Leftover(sh, req.sid, Registers(req, w))
  }

  function Opened(sh: Shared, h: Life, sid: Sid): Shared {
    if sid in sh.dirs then sh else sh.(dirs := sh.dirs[sid := Dir(h, None)])
  }

  /** What a failed start leaves: the run dir is gone, and token and keys once they were set. */
  function Leftover(sh: Shared, sid: Sid, registered: bool): Shared {
    var sh1 := sh.(dirs := RemoveRunDir(sh.dirs, sid));
    if registered then sh1.(tokens := sh.tokens - {sid}, keys := sh.keys - {sid}) else sh1
  }

  /** Removing the run dir of this ID takes no other. */
  predicate TakesNoOther(sh: Shared, sid: Sid) {
    OwnDir(sid) || sh.dirs.Keys <= {sid}
  }

  /** With nothing under the ID before, a start acquires everything, or gives everything back and
      takes nobody else's: the last exactly when the ID names a run dir of its own, or there is no
      other, or the start was turned away at the door. */
  lemma StartIsAllOrNothing(sh: Shared, max: nat, h: Life, req: Request, w: World)
    requires Clean(sh, req.sid)
    ensures StartCode(sh, max, req, w) == 202 ==> AfterStart(sh, max, h, req, w) == Started(sh, h, req)
    ensures StartCode(sh, max, req, w) != 202 ==>
              (AfterStart(sh, max, h, req, w) == sh <==> TurnedAway(sh, max, req, w) || TakesNoOther(sh, req.sid))
  {
    if StartCode(sh, max, req, w) == 202 { StartComesToThis(sh, max, h, req); }
    NothingToRemove(sh, req.sid);
  }

  function Masking(keys: map<Sid, set<Secret>>, sid: Sid, more: set<Secret>): map<Sid, set<Secret>> {
    if more == {} then keys else keys[sid := (if sid in keys then keys[sid] else {}) + more]
  }

  /** The host once the session's container has been handed to its supervisor. */
  function Started(sh: Shared, h: Life, req: Request): Shared {
    Shared(
      sh.tracker.(byKey := sh.tracker.byKey[req.sid := Run(h, req.sid)]),
      sh.reasonLife,
      sh.dirs[req.sid := Dir(h, if req.resume then Some(h) else None)],
      sh.tokens[req.sid := h],
      Masking(sh.keys, req.sid, AllSecrets(h, Requested(req))))
  }

  /** The host once that container has exited. */
  function CleanedUp(sh: Shared, sid: Sid): Shared {
    Shared(Remove(sh.tracker, sid), sh.reasonLife - {sid}, RemoveRunDir(sh.dirs, sid), sh.tokens - {sid},
           sh.keys - {sid})
  }

  /** A whole life, from start to exit, gives the host back as it was, exactly when the ID names a
      run dir of its own or no other session has one. */
  lemma LifeLeavesNoTrace(sh: Shared, h: Life, req: Request)
    requires Clean(sh, req.sid)
    ensures CleanedUp(Started(sh, h, req), req.sid) == sh <==> TakesNoOther(sh, req.sid)
  {
    var sh' := CleanedUp(Started(sh, h, req), req.sid);
    assert sh'.tracker.byKey == sh.tracker.byKey;
    assert sh'.tracker.reason == sh.tracker.reason;
    assert sh'.reasonLife == sh.reasonLife && sh'.tokens == sh.tokens && sh'.keys == sh.keys;
    EmptyExactly(sh, req.sid);
    if OwnDir(req.sid) { assert sh'.dirs == sh.dirs; }
  }

  lemma EmptyExactly(sh: Shared, sid: Sid)
    requires Clean(sh, sid)
    ensures sh.dirs == map[] <==> sh.dirs.Keys <= {sid}
  {
    if sh.dirs.Keys <= {sid} { assert forall o :: o in sh.dirs ==> o in sh.dirs.Keys; }
  }

  lemma StartComesToThis(sh: Shared, max: nat, h: Life, req: Request)
    requires CanAdmit(sh.tracker, max, Run(h, req.sid)) && req.sid !in sh.dirs
    ensures Provisioned(Opened(sh, h, req.sid), max, h, req) == Started(sh, h, req)
  {
    var dirs := sh.dirs[req.sid := Dir(h, None)];
    assert dirs[req.sid := Dir(h, Some(h))] == sh.dirs[req.sid := Dir(h, Some(h))];
  }

  lemma OpenedIsRemoved(sh: Shared, h: Life, sid: Sid, registered: bool)
    ensures Leftover(Opened(sh, h, sid), sid, registered) == Leftover(sh, sid, registered)
  {
    assert RemoveRunDir(Opened(sh, h, sid).dirs, sid) == RemoveRunDir(sh.dirs, sid);
  }

  lemma NothingToRemove(sh: Shared, sid: Sid)
    requires Clean(sh, sid)
    ensures sh.tokens - {sid} == sh.tokens && sh.keys - {sid} == sh.keys
    ensures RemoveRunDir(sh.dirs, sid) == sh.dirs <==> TakesNoOther(sh, sid)
  {
    assert sh.dirs - {sid} == sh.dirs;
    EmptyExactly(sh, sid);
  }

  function LaunchVerdict(w: World, admits: bool): LaunchResult {
    if !w.pull || !w.create || !w.attach then Failed
    else if !admits then NoCapacity
    else if !w.start then Failed
    else Launched
  }

  function LaunchCode(result: LaunchResult): nat {
    match result case Launched => 202 case Failed => 502 case NoCapacity => 429
  }

  /** Launch's answer outright: 429 is for a run that was created and attached but not admitted, 502
      for every other failure. */
  lemma LaunchAnswers(w: World, admits: bool)
    ensures var code := LaunchCode(LaunchVerdict(w, admits));
            && (code == 202 <==> w.pull && w.create && w.attach && admits && w.start)
            && (code == 429 <==> w.pull && w.create && w.attach && !admits)
            && code in {202, 429, 502}
  {
  }

  /** What a start adds to a host that already has its run dir. */
  function Provisioned(sh: Shared, max: nat, h: Life, req: Request): Shared {
    Shared(
      Admit(sh.tracker, max, Run(h, req.sid)), sh.reasonLife,
      if req.resume && req.sid in sh.dirs then sh.dirs[req.sid := sh.dirs[req.sid].(resume := Some(h))] else sh.dirs,
      sh.tokens[req.sid := h],
      Masking(sh.keys, req.sid, AllSecrets(h, Requested(req))))
  }

  /** Undone up to the run dir. */
  ghost predicate Undone(sh: Shared, sh': Shared, sid: Sid, registered: bool) {
    Leftover(sh', sid, false) == Leftover(sh, sid, registered)
  }

  lemma GivenBack(sh: Shared, h: Life, req: Request)
    requires req.sid in sh.dirs
    ensures Masking(sh.keys, req.sid, AllSecrets(h, Requested(req))) - {req.sid} == sh.keys - {req.sid}
    ensures sh.tokens[req.sid := h] - {req.sid} == sh.tokens - {req.sid}
    ensures RemoveRunDir(sh.dirs[req.sid := sh.dirs[req.sid].(resume := Some(h))], req.sid)
            == RemoveRunDir(sh.dirs, req.sid)
  {
  }

  function RemoveAllOf(dirs: map<Sid, Dir>, sids: set<Sid>): map<Sid, Dir> {
    if BASE in sids then map[] else dirs - sids
  }

  lemma OneMoreRemoved(dirs: map<Sid, Dir>, sids: set<Sid>, sid: Sid)
    ensures RemoveRunDir(RemoveAllOf(dirs, sids), sid) == RemoveAllOf(dirs, sids + {sid})
  {
  }

  function LivesOf(byKey: map<Sid, Run>): set<Life> {
    set sid | sid in byKey :: byKey[sid].containerId
  }

  // ---------------------------------------------------------------- the host

  class ChatHost {
    const tracker: Tracker
    var dirs: map<Sid, Dir>
    var tokens: map<Sid, Life>
    var keys: map<Sid, set<Secret>>
    var containers: map<Life, Container>
    ghost var reasonLife: map<Sid, Life>

    ghost function Value(): Shared
      reads this, tracker
    {
      Shared(tracker.Value(), reasonLife, dirs, tokens, keys)
    }

    ghost predicate Valid()
      reads this, tracker
    {
      Sound(tracker.Value(), tracker.max) && reasonLife.Keys <= tracker.byKey.Keys
    }

    /** Docker's answer to inspecting the life's container. */
    function ContainerOf(h: Life): Container
      reads this
    {
      if h in containers then containers[h] else Absent
    }

    constructor (max: nat)
      ensures Valid() && tracker.max == max && fresh(tracker)
      ensures Value() == Init(Config(max, {}, SafeIds)).sh
    {
      tracker := new Tracker(max);
      dirs, tokens, keys, containers, reasonLife := map[], map[], map[], map[], map[];
    }

    /** AddSessionKey ignores an empty secret. */
    method AddSessionKey(h: Life, kind: KeyKind, req: Request)
      modifies this`keys
      ensures keys == Masking(old(keys), req.sid, One(h, req, kind))
    {
      if kind in req.blank { return; }
      keys := keys[req.sid := (if req.sid in keys then keys[req.sid] else {}) + {Secret(h, kind)}];
    }

    /** Launch. A failure after the create removes the container again, and a failed start gives
        back the tracker slot. */
    method Launch(h: Life, sid: Sid, w: World) returns (result: LaunchResult)
      requires Valid()
      modifies this`containers, this`reasonLife, tracker
      ensures result == LaunchVerdict(w, CanAdmit(old(tracker.Value()), tracker.max, Run(h, sid)))
      ensures tracker.Value() == if result == Launched then Admit(old(tracker.Value()), tracker.max, Run(h, sid))
                                 else old(tracker.Value())
      ensures Valid() && reasonLife == old(reasonLife)
      ensures if result == Launched then containers == old(containers)[h := Running]
              else containers == old(containers) || containers == old(containers)[h := Gone]
    {
      AdmitStaysSound(tracker.Value(), tracker.max, Run(h, sid));
      if !w.pull { return Failed; }
      if !w.create { return Failed; }
      containers := containers[h := Created];
      if !w.attach {
        containers := containers[h := Gone];
        return Failed;
      }
      var admitted := tracker.AddIfUnderLimit(Run(h, sid));
      if !admitted {
        containers := containers[h := Gone];
        return NoCapacity;
      }
      if !w.start {
        AdmitThenRemove(old(tracker.Value()), tracker.max, Run(h, sid));
        tracker.RemoveRun(sid);
        assert reasonLife - {sid} == reasonLife;
        reasonLife := reasonLife - {sid};
        containers := containers[h := Gone];
        return Failed;
      }
      containers := containers[h := Running];
      result := Launched;
    }

    /** handleChatStart from the run dir on, up to its deferred removal. */
    method StartInDir(h: Life, req: Request, w: World) returns (code: nat)
      requires Valid() && req.sid in dirs
      modifies this, tracker
      ensures Valid()
      ensures code == if (req.resume && !w.resume) || !w.register then 500
                      else LaunchCode(LaunchVerdict(w, CanAdmit(old(tracker.Value()), tracker.max, Run(h, req.sid))))
      ensures code == 202 ==> Value() == Provisioned(old(Value()), tracker.max, h, req)
      ensures code != 202 ==> Undone(old(Value()), Value(), req.sid, Registers(req, w))
      ensures if code == 202 then containers == old(containers)[h := Running]
              else containers == old(containers) || containers == old(containers)[h := Gone]
    {
      if req.resume {
        dirs := dirs[req.sid := dirs[req.sid].(resume := Some(h))];
        if !w.resume { return 500; }
      }
      if !w.register { return 500; }
      GivenBack(old(Value()), h, req);
      code := StartWithToken(h, req, w);
    }

    /** From the proxy registration on; a failed Launch has its keys and token taken back. */
    method StartWithToken(h: Life, req: Request, w: World) returns (code: nat)
      requires Valid()
      modifies this, tracker
      ensures Valid()
      ensures code == LaunchCode(LaunchVerdict(w, CanAdmit(old(tracker.Value()), tracker.max, Run(h, req.sid))))
      ensures code == 202 ==>
                Value() == old(Value()).(tracker := Admit(old(tracker.Value()), tracker.max, Run(h, req.sid)),
                                         tokens := old(tokens)[req.sid := h],
                                         keys := Masking(old(keys), req.sid, AllSecrets(h, Requested(req))))
      ensures code != 202 ==>
                Value() == old(Value()).(
                  tokens := old(tokens)[req.sid := h] - {req.sid},
                  keys := Masking(old(keys), req.sid, AllSecrets(h, Requested(req))) - {req.sid})
      ensures if code == 202 then containers == old(containers)[h := Running]
              else containers == old(containers) || containers == old(containers)[h := Gone]
    {
      tokens := tokens[req.sid := h];
      RegisterKeys(h, req);
      var result := Launch(h, req.sid, w);
      if result == Launched { return 202; }
      keys := keys - {req.sid};
      tokens := tokens - {req.sid};
      if result == NoCapacity { return 429; }
      code := 502;
    }

    method RegisterKeys(h: Life, req: Request)
      modifies this`keys
      ensures keys == Masking(old(keys), req.sid, AllSecrets(h, Requested(req)))
    {
      AddSessionKey(h, GitBearer, req);
      AddSessionKey(h, McpKey, req);
      AddSessionKey(h, LlmToken, req);
      AddSessionKey(h, LlmKey, req);
      AddSessionKey(h, OverrideKey, req);
      MaskingAll(old(keys), req.sid, h, req);
    }

    /** handleChatStart from the mkdir on: the deferred removal takes the run dir of a failed start. */
    method StartWithDir(h: Life, req: Request, w: World) returns (code: nat)
      requires Valid()
      modifies this, tracker
      ensures Valid()
      ensures code == if !Registers(req, w) then 500
                      else LaunchCode(LaunchVerdict(w, CanAdmit(old(tracker.Value()), tracker.max, Run(h, req.sid))))
      ensures code == 202 ==> Value() == Provisioned(Opened(old(Value()), h, req.sid), tracker.max, h, req)
      ensures code != 202 ==> Value() == Leftover(old(Value()), req.sid, Registers(req, w))
      ensures if code == 202 then containers == old(containers)[h := Running]
              else containers == old(containers) || containers == old(containers)[h := Gone]
    {
      if req.sid !in dirs { dirs := dirs[req.sid := Dir(h, None)]; }
      OpenedIsRemoved(old(Value()), h, req.sid, Registers(req, w));
      code := StartInDir(h, req, w);
      if code != 202 { dirs := RemoveRunDir(dirs, req.sid); }
    }

    /** handleChatStart. What AfterStart says is spelled out by StartIsAllOrNothing. */
    method HandleChatStart(h: Life, req: Request, w: World) returns (code: nat)
      requires Valid()
      modifies this, tracker
      ensures Valid()
      ensures code == StartCode(old(Value()), tracker.max, req, w)
      ensures Value() == AfterStart(old(Value()), tracker.max, h, req, w)
      ensures if code == 202 then containers == old(containers)[h := Running]
              else containers == old(containers) || containers == old(containers)[h := Gone]
    {
      if !SafeId(req.sid) { return 400; }
      var n := tracker.Count();
      if n >= tracker.max { return 429; }
      var _, tracked := tracker.Get(req.sid);
      if tracked { return 409; }
      if !req.hasGit { return 500; }
      if !req.hasEndpoint { return 500; }
      if !w.mkdir { return 500; }
      code := StartWithDir(h, req, w);
    }

    /** waitAndCleanup with OnExit and DropSession, once the container has exited. */
    method WaitAndCleanup(h: Life, sid: Sid) returns (reason: string)
      requires Valid()
      modifies this, tracker
      ensures Valid()
      ensures reason == if sid in old(tracker.reason) then old(tracker.reason)[sid] else ""
      ensures Value() == CleanedUp(old(Value()), sid)
      ensures containers == old(containers)[h := Gone]
    {
      containers := containers[h := Gone];
      reason := tracker.Reason(sid);
      dirs := RemoveRunDir(dirs, sid);
      keys := keys - {sid};
      tokens := tokens - {sid};
      RemoveStaysSound(tracker.Value(), tracker.max, sid);
      tracker.RemoveRun(sid);
      reasonLife := reasonLife - {sid};
    }

    /** Stop and Kill up to the Docker call: who is tracked, and why it will have gone. */
    method GetAndMark(sid: Sid, why: string) returns (run: Run, found: bool)
      requires Valid()
      modifies this`reasonLife, tracker
      ensures Valid()
      ensures found <==> sid in old(tracker.byKey)
      ensures found ==> run == old(tracker.byKey)[sid]
      ensures Value() == if found then NoteReason(old(Value()), sid, why) else old(Value())
      ensures tracker.byKey == old(tracker.byKey)
      ensures found ==> tracker.reason == old(tracker.reason)[sid := why]
    {
      SetReasonStaysSound(tracker.Value(), tracker.max, sid, why);
      run, found := tracker.Get(sid);
      if !found { return; }
      tracker.RecordReason(sid, why);
      reasonLife := reasonLife[sid := run.containerId];
    }

    /** ContainerStop and ContainerKill: `ok` says whether Docker goes along. */
    method EndContainer(h: Life, ok: bool)
      modifies this`containers
      ensures containers == if ok && old(ContainerOf(h)) == Running then old(containers)[h := Exited]
                            else old(containers)
    {
      if ok && ContainerOf(h) == Running { containers := containers[h := Exited]; }
    }

    method Stop(sid: Sid, ok: bool) returns (found: bool)
      requires Valid()
      modifies this`containers, this`reasonLife, tracker
      ensures Valid()
      ensures found <==> sid in old(tracker.byKey)
      ensures Value() == if found then NoteReason(old(Value()), sid, "ended") else old(Value())
      ensures if found && ok && old(ContainerOf(tracker.byKey[sid].containerId)) == Running
              then containers == old(containers)[old(tracker.byKey[sid]).containerId := Exited]
              else containers == old(containers)
    {
      var run;
      run, found := GetAndMark(sid, "ended");
      if found { EndContainer(run.containerId, ok); }
    }

    method Kill(sid: Sid, ok: bool) returns (found: bool)
      requires Valid()
      modifies this`containers, this`reasonLife, tracker
      ensures Valid()
      ensures found <==> sid in old(tracker.byKey)
      ensures Value() == if found then NoteReason(old(Value()), sid, "killed") else old(Value())
      ensures tracker.byKey == old(tracker.byKey)
      ensures found ==> tracker.reason == old(tracker.reason)[sid := "killed"]
      ensures if found && ok && old(ContainerOf(tracker.byKey[sid].containerId)) == Running
              then containers == old(containers)[old(tracker.byKey[sid]).containerId := Exited]
              else containers == old(containers)
    {
      var run;
      run, found := GetAndMark(sid, "killed");
      if found { EndContainer(run.containerId, ok); }
    }

    /** What the kill loop owes a tracked run: marked killed, and no longer running unless Docker
        refused. */
    ghost predicate Swept(sid: Sid, answers: Sid -> bool)
      reads this, tracker
    {
      && sid in tracker.byKey && sid in tracker.reason && tracker.reason[sid] == "killed"
      && (answers(sid) ==> ContainerOf(tracker.byKey[sid].containerId) != Running)
    }

    /** One turn of the kill loop. */
    method KillAndSweep(sid: Sid, answers: Sid -> bool)
      requires Valid() && sid in tracker.byKey
      modifies this`containers, this`reasonLife, this`dirs, tracker
      ensures Valid() && tracker.byKey == old(tracker.byKey)
      ensures Swept(sid, answers) && forall other :: old(Swept(other, answers)) ==> Swept(other, answers)
      ensures forall h :: h !in LivesOf(tracker.byKey) ==> ContainerOf(h) == old(ContainerOf(h))
      ensures dirs == RemoveRunDir(old(dirs), sid)
    {
      var _ := Kill(sid, answers(sid));
      dirs := RemoveRunDir(dirs, sid);
    }

    /** The kill loop of gracefulShutdown: every tracked run is swept and has lost its run dir, nobody
        else's container is touched, and nobody else's directory unless the ID that names the base
        is among the tracked. */
    method KillAll(answers: Sid -> bool)
      requires Valid()
      modifies this`containers, this`reasonLife, this`dirs, tracker
      ensures Valid() && tracker.byKey == old(tracker.byKey)
      ensures forall sid :: sid in tracker.byKey ==> Swept(sid, answers)
      ensures forall h :: h !in LivesOf(tracker.byKey) ==> ContainerOf(h) == old(ContainerOf(h))
      ensures dirs == RemoveAllOf(old(dirs), old(tracker.byKey).Keys)
    {
      var runs := tracker.List();
      ghost var entries, lives := tracker.byKey, LivesOf(tracker.byKey);
      ghost var done: set<Sid> := {};
      for i := 0 to |runs|
        invariant Valid() && tracker.byKey == entries
        invariant forall j :: 0 <= j < i ==> runs[j].sessionId in done
        invariant done <= entries.Keys && dirs == RemoveAllOf(old(dirs), done)
        invariant forall sid :: sid in done ==> Swept(sid, answers)
        invariant forall h :: h !in lives ==> ContainerOf(h) == old(ContainerOf(h))
      {
        assert runs[i] in runs;
        KillAndSweep(runs[i].sessionId, answers);
        OneMoreRemoved(old(dirs), done, runs[i].sessionId);
        done := done + {runs[i].sessionId};
      }
      forall sid | sid in entries ensures sid in done { assert entries[sid] in runs; }
      assert done == entries.Keys;
    }
  }

  function One(h: Life, req: Request, kind: KeyKind): set<Secret> {
    if kind in req.blank then {} else {Secret(h, kind)}
  }

  lemma MaskingTwice(keys: map<Sid, set<Secret>>, sid: Sid, a: set<Secret>, b: set<Secret>)
    ensures Masking(Masking(keys, sid, a), sid, b) == Masking(keys, sid, a + b)
  {
    var k := if sid in keys then keys[sid] else {};
    assert k + a + b == k + (a + b);
    if a == {} { assert a + b == b; }
    if b == {} { assert a + b == a; }
  }

  lemma MaskingAll(keys: map<Sid, set<Secret>>, sid: Sid, h: Life, req: Request)
    ensures Masking(Masking(Masking(Masking(Masking(keys,
              sid, One(h, req, GitBearer)), sid, One(h, req, McpKey)), sid, One(h, req, LlmToken)),
              sid, One(h, req, LlmKey)), sid, One(h, req, OverrideKey))
            == Masking(keys, sid, AllSecrets(h, Requested(req)))
  {
    var a, b := One(h, req, GitBearer), One(h, req, McpKey);
    var c, d, e := One(h, req, LlmToken), One(h, req, LlmKey), One(h, req, OverrideKey);
    MaskingTwice(keys, sid, a, b);
    MaskingTwice(keys, sid, a + b, c);
    MaskingTwice(keys, sid, a + b + c, d);
    MaskingTwice(keys, sid, a + b + c + d, e);
    AllAreFive(h, req);
  }

  lemma AllAreFive(h: Life, req: Request)
    ensures AllSecrets(h, Requested(req))
            == One(h, req, GitBearer) + One(h, req, McpKey) + One(h, req, LlmToken) + One(h, req, LlmKey)
               + One(h, req, OverrideKey)
  {
    assert KEY_ORDER[0] == GitBearer && KEY_ORDER[1] == McpKey && KEY_ORDER[2] == LlmToken
           && KEY_ORDER[3] == LlmKey && KEY_ORDER[4] == OverrideKey;
  }

  lemma AdmitThenRemove(t: Registry, max: nat, r: Run)
    requires Sound(t, max) && CanAdmit(t, max, r)
    ensures Remove(Admit(t, max, r), r.sessionId) == t
  {
    assert Admit(t, max, r).byKey - {r.sessionId} == t.byKey;
    assert r.sessionId !in t.reason.Keys;
    assert t.reason - {r.sessionId} == t.reason;
  }
}
