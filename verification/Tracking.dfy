/**
 The run registry and concurrency gate (internal/executor/tracker.go). The functions on Registry
 say what each call does under the tracker's mutex; the Lifecycle machine takes them as its atomic
 steps, and the class below implements them.
 */
module Tracking {
  /** A tracked container. A container ID is never reused. */
  datatype Run = Run(containerId: nat, sessionId: string)

  datatype Registry = Registry(byKey: map<string, Run>, reason: map<string, string>)

  predicate CanAdmit(t: Registry, max: nat, r: Run) {
    r.sessionId !in t.byKey && |t.byKey| < max
  }

  function Admit(t: Registry, max: nat, r: Run): Registry {
    if CanAdmit(t, max, r) then t.(byKey := t.byKey[r.sessionId := r]) else t
  }

  function Remove(t: Registry, sid: string): Registry {
    Registry(t.byKey - {sid}, t.reason - {sid})
  }

  function SetReason(t: Registry, sid: string, why: string): Registry {
    if sid in t.byKey then t.(reason := t.reason[sid := why]) else t
  }

  /** At most `max` runs, and reasons only for tracked runs. */
  ghost predicate Sound(t: Registry, max: nat) {
    && |t.byKey| <= max
    && t.reason.Keys <= t.byKey.Keys
    && forall sid :: sid in t.byKey ==> t.byKey[sid].sessionId == sid
  }

  lemma AdmitStaysSound(t: Registry, max: nat, r: Run)
    requires Sound(t, max)
    ensures Sound(Admit(t, max, r), max)
  {
    if CanAdmit(t, max, r) { assert t.byKey[r.sessionId := r].Keys == t.byKey.Keys + {r.sessionId}; }
  }

  lemma RemoveStaysSound(t: Registry, max: nat, sid: string)
    requires Sound(t, max)
    ensures Sound(Remove(t, sid), max)
  {
    RemoveShrinks(t.byKey, sid);
    assert (t.byKey - {sid}).Keys == t.byKey.Keys - {sid};
    assert (t.reason - {sid}).Keys == t.reason.Keys - {sid};
  }

  lemma SetReasonStaysSound(t: Registry, max: nat, sid: string, why: string)
    requires Sound(t, max)
    ensures Sound(SetReason(t, sid, why), max)
  {
  }

  /** Every call keeps the registry sound. */
  lemma RegistryStaysSound(t: Registry, max: nat, r: Run, sid: string, why: string)
    requires Sound(t, max)
    ensures Sound(Admit(t, max, r), max) && Sound(Remove(t, sid), max) && Sound(SetReason(t, sid, why), max)
  {
    AdmitStaysSound(t, max, r);
    RemoveStaysSound(t, max, sid);
    SetReasonStaysSound(t, max, sid, why);
  }

  lemma RemoveShrinks<V>(m: map<string, V>, sid: string)
    ensures |m - {sid}| <= |m|
  {
    assert (m - {sid}).Keys == m.Keys - {sid};
    assert |m.Keys - {sid}| <= |m.Keys|;
    assert |m| == |m.Keys| && |m - {sid}| == |(m - {sid}).Keys|;
  }

  /** A session that is reopened starts with no reason, whatever was recorded before. */
  lemma ReopenedRunInheritsNoReason(t: Registry, max: nat, r: Run)
    requires Sound(t, max)
    requires CanAdmit(t, max, r)
    ensures r.sessionId !in Admit(t, max, r).reason
  {
    assert r.sessionId !in t.byKey.Keys;
  }

  class Tracker {
    const max: nat
    var byKey: map<string, Run>
    var reason: map<string, string>

    ghost function Value(): Registry
      reads this
    {
      Registry(byKey, reason)
    }

    constructor (maxConcurrent: nat)
      ensures max == maxConcurrent && Value() == Registry(map[], map[])
    {
      max, byKey, reason := maxConcurrent, map[], map[];
    }

    method AddIfUnderLimit(r: Run) returns (admitted: bool)
      modifies this
      ensures admitted == CanAdmit(old(Value()), max, r)
      ensures Value() == Admit(old(Value()), max, r)
    {
      if r.sessionId in byKey { return false; }
      if |byKey| >= max { return false; }
      byKey := byKey[r.sessionId := r];
      return true;
    }

    method Get(sid: string) returns (r: Run, ok: bool)
      ensures ok <==> sid in byKey
      ensures ok ==> r == byKey[sid]
    {
      r := Run(0, "");
      ok := sid in byKey;
      if ok { r := byKey[sid]; }
    }

    method RemoveRun(sid: string)
      modifies this
      ensures Value() == Remove(old(Value()), sid)
    {
      byKey := byKey - {sid};
      reason := reason - {sid};
    }

    /** A snapshot in arbitrary order: each tracked run exactly once. */
    method List() returns (out: seq<Run>)
      requires Sound(Value(), max)
      ensures forall r :: r in out <==> r.sessionId in byKey && byKey[r.sessionId] == r
      ensures |out| == |byKey|
    {
      out := [];
      var todo := byKey.Keys;
      while todo != {}
        invariant todo <= byKey.Keys
        invariant forall r :: r in out <==>
                    r.sessionId in byKey && r.sessionId !in todo && byKey[r.sessionId] == r
        invariant |out| + |todo| == |byKey|
      {
        var sid :| sid in todo;
        out := out + [byKey[sid]];
        todo := todo - {sid};
      }
    }

    method Count() returns (n: nat)
      ensures n == |byKey|
    {
      n := |byKey|;
    }

    method RecordReason(sid: string, why: string)
      modifies this
      ensures Value() == SetReason(old(Value()), sid, why)
    {
      if sid !in byKey { return; }
      reason := reason[sid := why];
    }

    method Reason(sid: string) returns (why: string)
      ensures why == if sid in reason then reason[sid] else ""
    {
      why := if sid in reason then reason[sid] else "";
    }
  }
}
