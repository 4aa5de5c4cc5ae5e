/**
 The Lifecycle machine against the host's own code: one life's steps, taken in a row, come to what
 Host's handleChatStart and waitAndCleanup come to.
 */
module HostSteps {
  import opened Options
  import opened Tracking
  import opened SessionIds
  import opened Lifecycle
  import opened Host
  import LifecycleBacking

  // ---------------------------------------------------------------- steps in a row

  ghost predicate IsHandlerStep(s: State, h: Life, s': State) {
    exists ok :: Enabled(s, Handler(h, ok)) && s' == HandlerStep(s, h, ok)
  }

  /** Nothing happens but steps of the life's handler. */
  ghost predicate HandlerOnly(h: Life, row: seq<State>) {
    forall i :: 0 <= i < |row| - 1 ==> IsHandlerStep(row[i], h, row[i + 1])
  }

  ghost predicate IsRow(s: State, h: Life, row: seq<State>) {
    h in s.lives && |row| > 0 && row[0] == s && HandlerOnly(h, row)
  }

  /** Where such a row ends, if it has changed nothing but the life and the host. */
  ghost function EndOf(s: State, h: Life, row: seq<State>): Option<(LifeRec, Shared)> {
    if IsRow(s, h, row) then Changed(s, h, row[|row| - 1]) else None
  }

  ghost function Changed(s: State, h: Life, t: State): Option<(LifeRec, Shared)> {
    if h in s.lives && h in t.lives && t.lives[h].req == s.lives[h].req
       && t == s.(lives := s.lives[h := t.lives[h]], sh := t.sh)
    then Some((t.lives[h], t.sh)) else None
  }

  /** The row leads from `s` to the handler at `l` and the host at `sh`. */
  ghost predicate HandlerAt(s: State, h: Life, row: seq<State>, l: LifeRec, sh: Shared) {
    EndOf(s, h, row) == Some((l, sh))
  }

  lemma SameRequest(l: LifeRec, seen: Seen, ok: bool)
    ensures HandlerNext(l, seen, ok).0.req == l.req
  {
  }

  lemma Step(s: State, h: Life, row: seq<State>, l: LifeRec, sh: Shared, ok: bool) returns (more: seq<State>)
    requires HandlerAt(s, h, row, l, sh) && l.pc != Returned
    requires l.pc == ConflictCheck ==> MayPassConflictCheck(s, h)
    ensures var next := HandlerNext(l, Look(s.(sh := sh), h, l.req.sid), ok);
            HandlerAt(s, h, more, next.0, Perform(sh, s.max, h, next.0.req.sid, next.1))
  {
    var t := row[|row| - 1];
    more := row + [HandlerStep(t, h, ok)];
    SameRequest(l, Look(t, h, l.req.sid), ok);
    assert t.lives[h := HandlerNext(l, Look(t, h, l.req.sid), ok).0]
           == s.lives[h := HandlerNext(l, Look(t, h, l.req.sid), ok).0];
    assert Enabled(t, Handler(h, ok));
    assert IsHandlerStep(t, h, more[|row|]);
  }

  // ---------------------------------------------------------------- the start

  lemma Refused(s: State, h: Life, req: Request, w: World) returns (row: seq<State>, l: LifeRec)
    requires h in s.lives && s.lives[h] == Requested(req)
    requires MayPassConflictCheck(s, h) && SafeId(req.sid) && TurnedAway(s.sh, s.max, req, w)
    ensures HandlerAt(s, h, row, l, s.sh) && l.pc == Returned && l.sup == Unspawned
    ensures l.code == StartCode(s.sh, s.max, req, w)
  {
    l := Requested(req);
    assert s.lives == s.lives[h := l];
    row := Step(s, h, [s], l, s.sh, true);
    l := if |s.sh.tracker.byKey| >= s.max then l.(pc := Returned, code := 429) else l.(pc := ConflictCheck);
    if l.pc == ConflictCheck {
      row := Step(s, h, row, l, s.sh, true);
      if req.sid in s.sh.tracker.byKey { l := l.(pc := Returned, code := 409); }
      else if !req.hasGit || !req.hasEndpoint { l := l.(pc := Returned, code := 500); }
      else {
        l := l.(pc := Mkdir);
        row := Step(s, h, row, l, s.sh, false);
        l := l.(pc := Returned, code := 500);
      }
    }
  }

  /** The run dir is made. */
  lemma MakesRunDir(s: State, h: Life, req: Request) returns (row: seq<State>)
    requires h in s.lives && s.lives[h] == Requested(req) && MayPassConflictCheck(s, h)
    requires |s.sh.tracker.byKey| < s.max && req.sid !in s.sh.tracker.byKey && req.hasGit && req.hasEndpoint
    ensures HandlerAt(s, h, row,
                      Requested(req).(pc := if req.resume then WriteResume else RegisterLlm),
                      Opened(s.sh, h, req.sid))
  {
    var l := Requested(req);
    assert s.lives == s.lives[h := l];
    row := Step(s, h, [s], l, s.sh, true);
    row := Step(s, h, row, l.(pc := ConflictCheck), s.sh, true);
    row := Step(s, h, row, l.(pc := Mkdir), s.sh, true);
  }

  lemma FillsRunDir(s: State, h: Life, row: seq<State>, l: LifeRec, sh: Shared, ok: bool)
    returns (more: seq<State>)
    requires HandlerAt(s, h, row, l, sh) && l.pc == WriteResume && l.req.sid in sh.dirs
    ensures HandlerAt(s, h, more, if ok then l.(pc := RegisterLlm) else l.(pc := RemoveDir, code := 500),
                      sh.(dirs := sh.dirs[l.req.sid := sh.dirs[l.req.sid].(resume := Some(h))]))
  {
    more := Step(s, h, row, l, sh, ok);
  }

  function KeyPc(i: nat): StartPc {
    if i < |KEY_ORDER| then AddKeys(i) else Pull
  }

  /** The host with the first `i` secrets of the life registered. */
  function Keyed(sh: Shared, h: Life, l: LifeRec, i: nat): Shared {
    sh.(keys := Masking(sh.keys, l.req.sid, Secrets(h, l, i)))
  }

  lemma RegistersOne(s: State, h: Life, row: seq<State>, l: LifeRec, sh: Shared, i: nat) returns (more: seq<State>)
    requires i < |KEY_ORDER| && HandlerAt(s, h, row, l.(pc := KeyPc(i)), Keyed(sh, h, l, i))
    ensures HandlerAt(s, h, more, l.(pc := KeyPc(i + 1)), Keyed(sh, h, l, i + 1))
  {
    more := Step(s, h, row, l.(pc := KeyPc(i)), Keyed(sh, h, l, i), true);
    MaskingGrows(sh, s.max, h, l, i);
  }

  lemma RegistersKeys(s: State, h: Life, row: seq<State>, l: LifeRec, sh: Shared) returns (more: seq<State>)
    requires HandlerAt(s, h, row, l.(pc := AddKeys(0)), sh)
    ensures HandlerAt(s, h, more, l.(pc := Pull), sh.(keys := Masking(sh.keys, l.req.sid, AllSecrets(h, l))))
  {
    assert Secrets(h, l, 0) == {} && Keyed(sh, h, l, 0) == sh;
    more := RegistersOne(s, h, row, l, sh, 0);
    more := RegistersOne(s, h, more, l, sh, 1);
    more := RegistersOne(s, h, more, l, sh, 2);
    more := RegistersOne(s, h, more, l, sh, 3);
    more := RegistersOne(s, h, more, l, sh, 4);
  }

  lemma MaskingGrows(sh: Shared, max: nat, h: Life, l: LifeRec, i: nat)
    requires i < |KEY_ORDER|
    ensures var sh1 := sh.(keys := Masking(sh.keys, l.req.sid, Secrets(h, l, i)));
            (if KEY_ORDER[i] in l.req.blank then sh1 else Perform(sh1, max, h, l.req.sid, AddKey(KEY_ORDER[i])))
            == sh.(keys := Masking(sh.keys, l.req.sid, Secrets(h, l, i + 1)))
  {
    LifecycleBacking.OneMoreSecret(h, l, l, i);
    MaskingTwice(sh.keys, l.req.sid, Secrets(h, l, i), {Secret(h, KEY_ORDER[i])});
  }

  /** Where a handler is after Launch: past everything, or before its own undoing. */
  function AfterLaunch(l: LifeRec, launched: bool, container: Container): LifeRec {
    if launched then l.(pc := Returned, code := 202, container := Running, sup := Waiting, pump := Copying)
    else l.(pc := ForgetKeys, code := 502, container := container)
  }

  predicate Untried(l: LifeRec) {
    l.container == Absent && l.sup == Unspawned && !l.timedOut
  }

  /** In the hands of a supervisor and a pump. */
  predicate HandedOver(l: LifeRec) {
    (l.sup, l.pump, l.container, l.timedOut) == (Waiting, Copying, Running, false)
  }

  lemma Launches(s: State, h: Life, row: seq<State>, l: LifeRec, sh: Shared, w: World)
    returns (more: seq<State>, container: Container)
    requires HandlerAt(s, h, row, l, sh) && l.pc == Pull && l.container == Absent
    requires Sound(sh.tracker, s.max) && sh.reasonLife.Keys <= sh.tracker.byKey.Keys
    requires CanAdmit(sh.tracker, s.max, Run(h, l.req.sid))
    ensures container in {Absent, Gone}
    ensures var launched := LaunchVerdict(w, true) == Launched;
            HandlerAt(s, h, more, AfterLaunch(l, launched, container),
                      if launched then sh.(tracker := Admit(sh.tracker, s.max, Run(h, l.req.sid))) else sh)
  {
    container := Absent;
    more := Step(s, h, row, l, sh, w.pull);
    if w.pull {
      more := Step(s, h, more, l.(pc := Create), sh, w.create);
      if w.create {
        more := LaunchesCreated(s, h, more, l, sh, w);
        container := Gone;
      }
    }
  }

  lemma Admits(s: State, h: Life, row: seq<State>, l: LifeRec, sh: Shared) returns (more: seq<State>)
    requires HandlerAt(s, h, row, l, sh) && l.pc == Admission && CanAdmit(sh.tracker, s.max, Run(h, l.req.sid))
    ensures HandlerAt(s, h, more, l.(pc := StartContainer), sh.(tracker := Admit(sh.tracker, s.max, Run(h, l.req.sid))))
  {
    more := Step(s, h, row, l, sh, true);
  }

  lemma StartsContainer(s: State, h: Life, row: seq<State>, l: LifeRec, sh: Shared) returns (more: seq<State>)
    requires HandlerAt(s, h, row, l, sh) && l.pc == StartContainer
    ensures HandlerAt(s, h, more, AfterLaunch(l, true, Running), sh)
  {
    more := Step(s, h, row, l, sh, true);
    more := Step(s, h, more, l.(pc := Spawn, container := Running), sh, true);
  }

  lemma DropsContainer(s: State, h: Life, row: seq<State>, l: LifeRec, sh: Shared) returns (more: seq<State>)
    requires HandlerAt(s, h, row, l, sh) && l.pc == DropContainer
    ensures HandlerAt(s, h, more, l.(pc := ForgetKeys, container := Gone), sh)
  {
    more := Step(s, h, row, l, sh, true);
  }

  lemma FailedAttach(s: State, h: Life, row: seq<State>, l: LifeRec, sh: Shared) returns (more: seq<State>)
    requires HandlerAt(s, h, row, l, sh) && l.pc == Attach
    ensures HandlerAt(s, h, more, AfterLaunch(l, false, Gone), sh)
  {
    more := Step(s, h, row, l, sh, false);
    more := DropsContainer(s, h, more, l.(pc := DropContainer, code := 502), sh);
  }

  lemma FailedStart(s: State, h: Life, row: seq<State>, l: LifeRec, sh: Shared, was: Shared) returns (more: seq<State>)
    requires HandlerAt(s, h, row, l, sh) && l.pc == StartContainer
    requires sh.(tracker := Remove(sh.tracker, l.req.sid), reasonLife := sh.reasonLife - {l.req.sid}) == was
    ensures HandlerAt(s, h, more, AfterLaunch(l, false, Gone), was)
  {
    more := Step(s, h, row, l, sh, false);
    more := Step(s, h, more, l.(pc := Untrack, code := 502), sh, true);
    more := DropsContainer(s, h, more, l.(pc := DropContainer, code := 502), was);
  }

  lemma UntracksAsBefore(sh: Shared, max: nat, r: Run)
    requires Sound(sh.tracker, max) && CanAdmit(sh.tracker, max, r) && sh.reasonLife.Keys <= sh.tracker.byKey.Keys
    ensures var sh1 := sh.(tracker := Admit(sh.tracker, max, r));
            sh1.(tracker := Remove(sh1.tracker, r.sessionId), reasonLife := sh1.reasonLife - {r.sessionId}) == sh
  {
    AdmitThenRemove(sh.tracker, max, r);
    assert sh.reasonLife - {r.sessionId} == sh.reasonLife;
  }

  lemma LaunchesCreated(s: State, h: Life, row: seq<State>, l: LifeRec, sh: Shared, w: World)
    returns (more: seq<State>)
    requires HandlerAt(s, h, row, l.(pc := Attach, container := Created), sh)
    requires Sound(sh.tracker, s.max) && sh.reasonLife.Keys <= sh.tracker.byKey.Keys
    requires CanAdmit(sh.tracker, s.max, Run(h, l.req.sid))
    ensures var launched := w.attach && w.start;
            HandlerAt(s, h, more, AfterLaunch(l, launched, Gone),
                      if launched then sh.(tracker := Admit(sh.tracker, s.max, Run(h, l.req.sid))) else sh)
  {
    var c := l.(pc := Attach, container := Created);
    if !w.attach {
      more := FailedAttach(s, h, row, c, sh);
    } else {
      var sh1 := sh.(tracker := Admit(sh.tracker, s.max, Run(h, l.req.sid)));
      more := Step(s, h, row, c, sh, true);
      more := Admits(s, h, more, c.(pc := Admission), sh);
      if w.start {
        more := StartsContainer(s, h, more, c.(pc := StartContainer), sh1);
      } else {
        UntracksAsBefore(sh, s.max, Run(h, l.req.sid));
        more := FailedStart(s, h, more, c.(pc := StartContainer), sh1, sh);
      }
    }
  }

  lemma ForgetsKeys(s: State, h: Life, row: seq<State>, l: LifeRec, sh: Shared) returns (more: seq<State>)
    requires HandlerAt(s, h, row, l, sh) && l.pc == ForgetKeys
    ensures HandlerAt(s, h, more, l.(pc := RevokeLlm), sh.(keys := sh.keys - {l.req.sid}))
  {
    more := Step(s, h, row, l, sh, true);
  }

  lemma Revokes(s: State, h: Life, row: seq<State>, l: LifeRec, sh: Shared) returns (more: seq<State>)
    requires HandlerAt(s, h, row, l, sh) && l.pc == RevokeLlm
    ensures HandlerAt(s, h, more, l.(pc := RemoveDir), sh.(tokens := sh.tokens - {l.req.sid}))
  {
    more := Step(s, h, row, l, sh, true);
  }

  lemma RemovesDir(s: State, h: Life, row: seq<State>, l: LifeRec, sh: Shared) returns (more: seq<State>)
    requires HandlerAt(s, h, row, l, sh) && l.pc == RemoveDir
    ensures HandlerAt(s, h, more, l.(pc := Returned), sh.(dirs := RemoveRunDir(sh.dirs, l.req.sid)))
  {
    more := Step(s, h, row, l, sh, true);
  }

  lemma RegistersToken(s: State, h: Life, row: seq<State>, l: LifeRec, sh: Shared, ok: bool) returns (more: seq<State>)
    requires HandlerAt(s, h, row, l, sh) && l.pc == RegisterLlm
    ensures if ok then HandlerAt(s, h, more, l.(pc := AddKeys(0)), sh.(tokens := sh.tokens[l.req.sid := h]))
            else HandlerAt(s, h, more, l.(pc := RemoveDir, code := 500), sh)
  {
    more := Step(s, h, row, l, sh, ok);
  }

  lemma Undoes(s: State, h: Life, row: seq<State>, l: LifeRec, sh: Shared, was: Shared) returns (more: seq<State>)
    requires HandlerAt(s, h, row, l, sh) && l.pc == ForgetKeys
    requires sh == was.(tokens := was.tokens[l.req.sid := h], keys := Masking(was.keys, l.req.sid, AllSecrets(h, l)))
    ensures HandlerAt(s, h, more, l.(pc := Returned), Leftover(was, l.req.sid, true))
  {
    more := ForgetsKeys(s, h, row, l, sh);
    var sh1 := sh.(keys := sh.keys - {l.req.sid});
    more := Revokes(s, h, more, l.(pc := RevokeLlm), sh1);
    var sh2 := sh1.(tokens := sh1.tokens - {l.req.sid});
    more := RemovesDir(s, h, more, l.(pc := RemoveDir), sh2);
    assert sh.keys - {l.req.sid} == was.keys - {l.req.sid};
    assert sh.tokens - {l.req.sid} == was.tokens - {l.req.sid};
    assert sh2.(dirs := RemoveRunDir(sh2.dirs, l.req.sid)) == Leftover(was, l.req.sid, true);
  }

  lemma StartsWithToken(s: State, h: Life, row: seq<State>, l: LifeRec, sh: Shared, was: Shared, w: World)
    returns (more: seq<State>, end: LifeRec)
    requires HandlerAt(s, h, row, l.(pc := AddKeys(0)), sh) && Untried(l)
    requires sh == was.(tokens := was.tokens[l.req.sid := h])
    requires Sound(sh.tracker, s.max) && sh.reasonLife.Keys <= sh.tracker.byKey.Keys
    requires CanAdmit(sh.tracker, s.max, Run(h, l.req.sid))
    ensures end.pc == Returned
    ensures if LaunchVerdict(w, true) == Launched
            then end.code == 202 && HandedOver(end) && HandlerAt(s, h, more, end, WithContainer(was, s.max, h, l))
            else end.code == 502 && end.sup == Unspawned && HandlerAt(s, h, more, end, Leftover(was, l.req.sid, true))
  {
    more := RegistersKeys(s, h, row, l, sh);
    var sh1 := sh.(keys := Masking(sh.keys, l.req.sid, AllSecrets(h, l)));
    var container;
    more, container := Launches(s, h, more, l.(pc := Pull), sh1, w);
    if LaunchVerdict(w, true) == Launched {
      end := AfterLaunch(l, true, container);
    } else {
      more := Undoes(s, h, more, AfterLaunch(l, false, container), sh1, was);
      end := AfterLaunch(l, false, container).(pc := Returned);
    }
  }

  function WithContainer(sh: Shared, max: nat, h: Life, l: LifeRec): Shared {
    sh.(tracker := Admit(sh.tracker, max, Run(h, l.req.sid)), tokens := sh.tokens[l.req.sid := h],
        keys := Masking(sh.keys, l.req.sid, AllSecrets(h, l)))
  }

  lemma FailedFill(s: State, h: Life, row: seq<State>, l: LifeRec, sh: Shared) returns (more: seq<State>)
    requires HandlerAt(s, h, row, l, sh) && l.pc == WriteResume && l.req.sid in sh.dirs
    ensures HandlerAt(s, h, more, l.(pc := Returned, code := 500), Leftover(sh, l.req.sid, false))
  {
    more := FillsRunDir(s, h, row, l, sh, false);
    var sh1 := sh.(dirs := sh.dirs[l.req.sid := sh.dirs[l.req.sid].(resume := Some(h))]);
    more := RemovesDir(s, h, more, l.(pc := RemoveDir, code := 500), sh1);
    assert RemoveRunDir(sh1.dirs, l.req.sid) == RemoveRunDir(sh.dirs, l.req.sid);
  }

  lemma FailedRegister(s: State, h: Life, row: seq<State>, l: LifeRec, sh: Shared) returns (more: seq<State>)
    requires HandlerAt(s, h, row, l, sh) && l.pc == RegisterLlm
    ensures HandlerAt(s, h, more, l.(pc := Returned, code := 500), Leftover(sh, l.req.sid, false))
  {
    more := RegistersToken(s, h, row, l, sh, false);
    more := RemovesDir(s, h, more, l.(pc := RemoveDir, code := 500), sh);
  }

  lemma StartsInDir(s: State, h: Life, row: seq<State>, l: LifeRec, sh: Shared, w: World)
    returns (more: seq<State>, end: LifeRec)
    requires HandlerAt(s, h, row, l, sh) && l.pc == RegisterLlm && Untried(l)
    requires Sound(sh.tracker, s.max) && sh.reasonLife.Keys <= sh.tracker.byKey.Keys
    requires CanAdmit(sh.tracker, s.max, Run(h, l.req.sid))
    ensures end.pc == Returned
    ensures if w.register && LaunchVerdict(w, true) == Launched
            then end.code == 202 && HandedOver(end) && HandlerAt(s, h, more, end, WithContainer(sh, s.max, h, l))
            else end.code == (if w.register then 502 else 500) && end.sup == Unspawned
                 && HandlerAt(s, h, more, end, Leftover(sh, l.req.sid, w.register))
  {
    if w.register {
      more := RegistersToken(s, h, row, l, sh, true);
      more, end := StartsWithToken(s, h, more, l, sh.(tokens := sh.tokens[l.req.sid := h]), sh, w);
    } else {
      more := FailedRegister(s, h, row, l, sh);
      end := l.(pc := Returned, code := 500);
    }
  }

  lemma FailsToFill(s: State, h: Life, req: Request) returns (row: seq<State>, end: LifeRec)
    requires h in s.lives && s.lives[h] == Requested(req) && MayPassConflictCheck(s, h)
    requires |s.sh.tracker.byKey| < s.max && req.sid !in s.sh.tracker.byKey
    requires req.hasGit && req.hasEndpoint && req.resume
    ensures end == Requested(req).(pc := Returned, code := 500)
    ensures HandlerAt(s, h, row, end, Leftover(s.sh, req.sid, false))
  {
    row := MakesRunDir(s, h, req);
    row := FailedFill(s, h, row, Requested(req).(pc := WriteResume), Opened(s.sh, h, req.sid));
    OpenedIsRemoved(s.sh, h, req.sid, false);
    end := Requested(req).(pc := Returned, code := 500);
  }

  /** The run dir made, and filled if there is a transcript to resume from. */
  function Filled(sh: Shared, h: Life, req: Request): Shared {
    var sh1 := Opened(sh, h, req.sid);
    if req.resume then sh1.(dirs := sh1.dirs[req.sid := sh1.dirs[req.sid].(resume := Some(h))]) else sh1
  }

  lemma FilledRunDir(s: State, h: Life, req: Request) returns (row: seq<State>)
    requires h in s.lives && s.lives[h] == Requested(req) && MayPassConflictCheck(s, h)
    requires |s.sh.tracker.byKey| < s.max && req.sid !in s.sh.tracker.byKey && req.hasGit && req.hasEndpoint
    ensures HandlerAt(s, h, row, Requested(req).(pc := RegisterLlm), Filled(s.sh, h, req))
  {
    row := MakesRunDir(s, h, req);
    if req.resume {
      row := FillsRunDir(s, h, row, Requested(req).(pc := WriteResume), Opened(s.sh, h, req.sid), true);
    }
  }

  lemma FilledIsRemoved(sh: Shared, h: Life, req: Request, registered: bool)
    ensures Leftover(Filled(sh, h, req), req.sid, registered) == Leftover(sh, req.sid, registered)
  {
    assert RemoveRunDir(Filled(sh, h, req).dirs, req.sid) == RemoveRunDir(sh.dirs, req.sid);
  }

  lemma Provisions(s: State, h: Life, req: Request, w: World) returns (row: seq<State>, end: LifeRec)
    requires h in s.lives && s.lives[h] == Requested(req) && MayPassConflictCheck(s, h)
    requires Sound(s.sh.tracker, s.max) && s.sh.reasonLife.Keys <= s.sh.tracker.byKey.Keys
    requires !TurnedAway(s.sh, s.max, req, w)
    ensures end.pc == Returned && end.code == StartCode(s.sh, s.max, req, w)
    ensures if end.code == 202 then HandedOver(end) else end.sup == Unspawned
    ensures HandlerAt(s, h, row, end, AfterStart(s.sh, s.max, h, req, w))
  {
    if req.resume && !w.resume {
      row, end := FailsToFill(s, h, req);
    } else {
      row := FilledRunDir(s, h, req);
      row, end := StartsInDir(s, h, row, Requested(req).(pc := RegisterLlm), Filled(s.sh, h, req), w);
      FilledIsRemoved(s.sh, h, req, w.register);
    }
  }

  /** A start with nobody in between: the machine answers what handleChatStart answers and leaves
      the host as handleChatStart leaves it, whatever the host held before. The machine starts past
      the guard on the session ID, and what callers see to about overlapping starts has to let this
      one pass. */
  lemma StartsAlike(s: State, h: Life, req: Request, w: World) returns (row: seq<State>, end: LifeRec)
    requires SafeId(req.sid)
    requires h in s.lives && s.lives[h] == Requested(req) && MayPassConflictCheck(s, h)
    requires Sound(s.sh.tracker, s.max) && s.sh.reasonLife.Keys <= s.sh.tracker.byKey.Keys
    ensures end.pc == Returned && end.code == StartCode(s.sh, s.max, req, w)
    ensures if end.code == 202 then HandedOver(end) else end.sup == Unspawned
    ensures HandlerAt(s, h, row, end, AfterStart(s.sh, s.max, h, req, w))
  {
    if TurnedAway(s.sh, s.max, req, w) {
      row, end := Refused(s, h, req, w);
    } else {
      row, end := Provisions(s, h, req, w);
    }
  }

  // ---------------------------------------------------------------- the exit

  ghost predicate IsSupervisorStep(s: State, h: Life, s': State) {
    exists alt :: Enabled(s, Supervisor(h, alt)) && s' == SupervisorStep(s, h, alt)
  }

  ghost predicate SupervisorOnly(h: Life, row: seq<State>) {
    forall i :: 0 <= i < |row| - 1 ==> IsSupervisorStep(row[i], h, row[i + 1])
  }

  ghost predicate IsExitRow(s: State, h: Life, row: seq<State>) {
    h in s.lives && |row| > 0 && row[0] == s && SupervisorOnly(h, row)
  }

  ghost predicate SupervisorAt(s: State, h: Life, row: seq<State>, l: LifeRec, sh: Shared) {
    (if IsExitRow(s, h, row) then Changed(s, h, row[|row| - 1].(labels := s.labels)) else None) == Some((l, sh))
  }

  lemma StepOfExit(s: State, h: Life, row: seq<State>, l: LifeRec, sh: Shared, alt: bool) returns (more: seq<State>)
    requires SupervisorAt(s, h, row, l, sh) && Supervised(l.sup)
    requires l.sup == Waiting ==> alt || l.container == Exited
    requires l.sup == Draining ==> alt || l.pump == PumpDone
    ensures var next := SupervisorNext(l, alt);
            SupervisorAt(s, h, more, next.0, Perform(sh, s.max, h, next.0.req.sid, next.1))
  {
    var t := row[|row| - 1];
    more := row + [SupervisorStep(t, h, alt)];
    assert t.lives[h := SupervisorNext(l, alt).0] == s.lives[h := SupervisorNext(l, alt).0];
    assert Enabled(t, Supervisor(h, alt));
    assert IsSupervisorStep(t, h, more[|row|]);
  }

  lemma ExitsUpToOnExit(s: State, h: Life, l: LifeRec, failed: bool, timedOut: bool) returns (row: seq<State>)
    requires h in s.lives && s.lives[h] == l && l.sup == Waiting
    requires (failed || l.container == Exited) && (timedOut || l.pump == PumpDone)
    ensures SupervisorAt(s, h, row, l.(sup := ExitDir, container := Gone, timedOut := timedOut), s.sh)
  {
    assert s.lives == s.lives[h := l];
    row := StepOfExit(s, h, [s], l, s.sh, failed);
    row := StepOfExit(s, h, row, l.(sup := Removing), s.sh, false);
    row := StepOfExit(s, h, row, l.(sup := Labelling, container := Gone), s.sh, false);
    row := StepOfExit(s, h, row, l.(sup := Draining, container := Gone), s.sh, timedOut);
  }

  lemma ExitsUpToRelease(s: State, h: Life, row: seq<State>, l: LifeRec, sh: Shared) returns (more: seq<State>)
    requires SupervisorAt(s, h, row, l, sh) && l.sup == ExitDir
    ensures SupervisorAt(s, h, more, l.(sup := Releasing),
                         sh.(dirs := RemoveRunDir(sh.dirs, l.req.sid), keys := sh.keys - {l.req.sid},
                             tokens := sh.tokens - {l.req.sid}))
  {
    more := StepOfExit(s, h, row, l, sh, false);
    var sh1 := sh.(dirs := RemoveRunDir(sh.dirs, l.req.sid));
    more := StepOfExit(s, h, more, l.(sup := ExitLock), sh1, false);
    more := StepOfExit(s, h, more, l.(sup := ExitKeys), sh1, false);
    var sh2 := sh1.(keys := sh1.keys - {l.req.sid});
    more := StepOfExit(s, h, more, l.(sup := ExitToken), sh2, false);
  }

  /** An exit with nobody in between, of a container that has exited or whose wait failed, drained or
      given up on, leaves the host as waitAndCleanup leaves it. */
  lemma ExitsAlike(s: State, h: Life, failed: bool, timedOut: bool) returns (row: seq<State>, end: LifeRec)
    requires h in s.lives && s.lives[h].sup == Waiting
    requires (failed || s.lives[h].container == Exited) && (timedOut || s.lives[h].pump == PumpDone)
    ensures end.sup == Finished && end.container == Gone
    ensures SupervisorAt(s, h, row, end, CleanedUp(s.sh, s.lives[h].req.sid))
  {
    var l := s.lives[h].(sup := ExitDir, container := Gone, timedOut := timedOut);
    row := ExitsUpToOnExit(s, h, s.lives[h], failed, timedOut);
    row := ExitsUpToRelease(s, h, row, l, s.sh);
    var sid := l.req.sid;
    var sh := s.sh.(dirs := RemoveRunDir(s.sh.dirs, sid), keys := s.sh.keys - {sid}, tokens := s.sh.tokens - {sid});
    row := StepOfExit(s, h, row, l.(sup := Releasing), sh, false);
    end := l.(sup := Finished);
  }
}
