/**
 The host lifecycle and message delivery as one machine: the lifecycle's own steps, each showing the
 delivery side what it shows of the tracker and of exits, and the message handlers' steps in between.
 */
module Sessions {
  import opened Options
  import opened Runs
  import L = Lifecycle
  import O = LifecycleOwnership
  import D = Delivery
  import P = DeliveryProofs
  import E = EndToEnd

  datatype State = State(host: L.State, http: D.State)

  datatype Action = Host(step: L.Action) | Http(move: D.Action)

  function Init(c: L.Config): State {
    State(L.Init(c), D.Init())
  }

  ghost function Next(s: State, x: Action): Option<State> {
    match x
    case Host(a) =>
      if !L.Enabled(s.host, a) then None else
      var v := E.ShownBy(s.host, a);
      if v.Some? && !D.EnvEnabled(s.http.env, v.value) then None
      else Some(State(L.Apply(s.host, a), Follow(s.http, v)))
    case Http(a) =>
      if a.Lifecycle? || !D.Enabled(s.http, a) then None else Some(s.(http := D.Apply(s.http, a)))
  }

  ghost predicate Reaches(c: L.Config, acts: seq<Action>, s: State) {
    After(Next, Init(c), acts) == Some(s)
  }

  // ---------------------------------------------------------------- both machines at once

  ghost predicate Inv(s: State) {
    O.OwnInv(s.host) && P.MutexInv(s.http) && P.ReplyInv(s.http) && E.Shows(s.http.env, s.host)
  }

  lemma HttpKeepsEnv(d: D.State, a: D.Action)
    requires D.Enabled(d, a) && !a.Lifecycle?
    ensures D.Apply(d, a).env == d.env
  {
    if a.Step? && d.handlers[a.h].pc != D.NeedMutex { P.StepKeepsShared(d, a.h, a.result); }
  }

  lemma HttpKeepsInv(s: State, a: D.Action)
    requires Inv(s) && D.Enabled(s.http, a) && !a.Lifecycle?
    ensures Inv(s.(http := D.Apply(s.http, a)))
  {
    P.StepKeepsMutexInv(s.http, a);
    P.StepKeepsReplyInv(s.http, a);
    HttpKeepsEnv(s.http, a);
  }

  lemma ExitsKeepInv(d: D.State, v: D.EnvStep)
    requires P.MutexInv(d) && P.ReplyInv(d) && D.EnvEnabled(d.env, v)
    ensures var d' := D.Apply(d, D.Lifecycle(v));
            P.MutexInv(d') && P.ReplyInv(d') && d'.env == E.Move(d.env, Some(v))
  {
    P.StepKeepsMutexInv(d, D.Lifecycle(v));
    P.StepKeepsReplyInv(d, D.Lifecycle(v));
  }

  /** What the delivery side makes of a step of the host. */
  ghost function Follow(d: D.State, v: Option<D.EnvStep>): D.State
    requires v.Some? ==> D.EnvEnabled(d.env, v.value)
  {
    if v.Some? then D.Apply(d, D.Lifecycle(v.value)) else d
  }

  lemma FollowKeepsInv(d: D.State, v: Option<D.EnvStep>)
    requires P.MutexInv(d) && P.ReplyInv(d) && (v.Some? ==> D.EnvEnabled(d.env, v.value))
    ensures P.MutexInv(Follow(d, v)) && P.ReplyInv(Follow(d, v)) && Follow(d, v).env == E.Move(d.env, v)
  {
    if v.Some? { ExitsKeepInv(d, v.value); }
  }

  /** The delivery side never holds up the host. */
  lemma HostMoves(s: State, a: L.Action)
    requires Inv(s) && L.Enabled(s.host, a)
    ensures Next(s, Host(a)).Some? && Inv(Next(s, Host(a)).value)
  {
    O.StepKeepsOwnership(s.host, a);
    E.StepIsVisible(s.host, a, s.http.env);
    FollowKeepsInv(s.http, E.ShownBy(s.host, a));
  }

  lemma StepKeepsInv(s: State, x: Action)
    requires Inv(s) && Next(s, x).Some?
    ensures Inv(Next(s, x).value)
  {
    match x
    case Host(a) => HostMoves(s, a);
    case Http(a) => HttpKeepsInv(s, a);
  }

  lemma {:induction false} InvFrom(s: State, acts: seq<Action>, s': State)
    requires Inv(s) && After(Next, s, acts) == Some(s')
    ensures Inv(s')
    decreases |acts|
  {
    if acts != [] {
      StepKeepsInv(s, acts[0]);
      InvFrom(Next(s, acts[0]).value, acts[1..], s');
    }
  }

  lemma InvAlways(c: L.Config, acts: seq<Action>, s: State)
    requires Reaches(c, acts, s)
    ensures Inv(s)
  {
    InvFrom(Init(c), acts, s);
  }

  // ---------------------------------------------------------------- what it means

  /** Whatever the message handlers are at, every step of the host goes on being possible. */
  lemma HostIsNeverHeldUp(c: L.Config, acts: seq<Action>, s: State, a: L.Action)
    requires Reaches(c, acts, s) && L.Enabled(s.host, a)
    ensures Next(s, Host(a)).Some?
  {
    InvAlways(c, acts, s);
    HostMoves(s, a);
  }

  /** Each half of a run is a run of its machine. */
  lemma {:induction false} HalvesAreRuns(c: L.Config, acts: seq<Action>, s: State)
    returns (host: seq<L.Action>, http: seq<D.Action>)
    requires Reaches(c, acts, s)
    ensures L.Reaches(c, host, s.host) && D.Reaches(http, s.http)
  {
    if acts == [] {
      host, http := [], [];
    } else {
      Last(Next, Init(c), acts);
      var before, x := After(Next, Init(c), acts[..|acts| - 1]).value, acts[|acts| - 1];
      host, http := HalvesAreRuns(c, acts[..|acts| - 1], before);
      match x
      case Host(a) =>
        L.Extend(c, host, before.host, a);
        host := host + [a];
        if E.ShownBy(before.host, a).Some? {
          http := ExtendHttp(http, before.http, D.Lifecycle(E.ShownBy(before.host, a).value));
        }
      case Http(a) => http := ExtendHttp(http, before.http, a);
    }
  }

  lemma ExtendHttp(acts: seq<D.Action>, d: D.State, a: D.Action) returns (more: seq<D.Action>)
    requires D.Reaches(acts, d) && D.Enabled(d, a)
    ensures D.Reaches(more, D.Apply(d, a))
  {
    more := acts + [a];
    Then(D.Next, D.Init(), acts, d, [a]);
    One(D.Next, d, a);
  }

  /** The run is tracked, and its exit has not got to the deletion of the mutex. */
  predicate BeforeDrop(l: L.LifeRec) {
    L.Owns(l) && !E.PastDropSession(l)
  }

  lemma BeforeDropIsLive(s: State, run: L.Life)
    requires O.OwnerIsTracked(s.host) && E.Shows(s.http.env, s.host) && P.EnvFits(s.http.env)
    requires run in s.host.lives && BeforeDrop(s.host.lives[run])
    ensures D.Live(s.http.env, s.host.lives[run].req.sid, run)
    ensures run in s.http.env.known && s.http.env.known[run] == s.host.lives[run].req.sid
  {
    var sid := s.host.lives[run].req.sid;
    assert sid in s.host.sh.tracker.byKey.Keys;
    assert sid in s.http.env.tracked.Keys;
  }

  /** From a run's admission until its supervisor gets past the deletion of the mutex, all handlers
      that go to its stdin go there with one and the same mutex, one at a time; whatever starts,
      exits and reopenings of this and other sessions come in between. */
  lemma StdinHasOneUserUntilExit(c: L.Config, acts: seq<Action>, s: State, run: L.Life, g: D.Hid, h: D.Hid)
    requires Reaches(c, acts, s) && run in s.host.lives && BeforeDrop(s.host.lives[run])
    requires g in s.http.handlers && h in s.http.handlers
    requires s.http.handlers[g].mutex.Some? && s.http.handlers[h].mutex.Some?
    requires s.http.handlers[g].run == run && s.http.handlers[h].run == run
    ensures s.http.handlers[g].mutex == s.http.handlers[h].mutex
    ensures D.UsesStdin(s.http.handlers[g]) && D.UsesStdin(s.http.handlers[h]) ==> g == h
  {
    InvAlways(c, acts, s);
    BeforeDropIsLive(s, run);
    assert P.HandlerFits(s.http, s.http.handlers[g]) && P.HandlerFits(s.http, s.http.handlers[h]);
    var host, http := HalvesAreRuns(c, acts, s);
    P.LiveRunHasOneWriter(http, s.http, g, h);
  }
}
