/** The chat message the harness sends (llm.Message), as far as this program looks at it. */
module Llm {
  datatype Message = Message(role: string, content: string, details: bool)
}

/**
 The role-order fallback (internal/chatwork/roleorder.go): an assistant-first request that a
 gateway refuses with 400 is resent with its leading assistant turn relabelled as a user turn,
 and from the first success on such requests are relabelled before they are sent.
 */
module RoleOrder {
  import opened Llm

  /** A gateway's answer: a response, an HTTP status error, or any other failure. */
  datatype Reply = Accepted(text: string) | Status(code: int) | TransportError

  const BAD_REQUEST := 400

  /** The first non-system message is an assistant turn, at position `i`. */
  ghost predicate LeadsAt(msgs: seq<Message>, i: int) {
    && 0 <= i < |msgs|
    && msgs[i].role == "assistant"
    && forall j :: 0 <= j < i ==> msgs[j].role == "system"
  }

  function LeadingFrom(msgs: seq<Message>, from: nat): (i: int)
    requires from <= |msgs|
    requires forall j :: 0 <= j < from ==> msgs[j].role == "system"
    ensures i >= 0 ==> LeadsAt(msgs, i)
    ensures i < 0 ==> i == -1 && forall k :: !LeadsAt(msgs, k)
    decreases |msgs| - from
  {
    if from == |msgs| then -1
    else if msgs[from].role == "system" then LeadingFrom(msgs, from + 1)
    else if msgs[from].role == "assistant" then from
    else -1
  }

  function Leading(msgs: seq<Message>): int {
    LeadingFrom(msgs, 0)
  }

  method LeadingAssistant(msgs: seq<Message>) returns (i: int)
    ensures i >= 0 ==> LeadsAt(msgs, i)
    ensures i < 0 ==> i == -1 && forall k :: !LeadsAt(msgs, k)
    ensures i == Leading(msgs)
  {
    for n := 0 to |msgs|
      invariant forall j :: 0 <= j < n ==> msgs[j].role == "system"
    {
      if msgs[n].role == "system" { continue; }
      if msgs[n].role == "assistant" {
        assert LeadsAt(msgs, n);
        return n;
      }
      return -1;
    }
    return -1;
  }

  predicate HasDetails(msgs: seq<Message>) {
    exists m :: m in msgs && m.details
  }

  /** The resend: the message at the leading assistant position becomes a user turn. */
  function Flip(msgs: seq<Message>): seq<Message>
    requires Leading(msgs) >= 0
  {
    msgs[Leading(msgs) := msgs[Leading(msgs)].(role := "user")]
  }

  datatype Outcome = Outcome(engaged: bool, result: Reply, calls: seq<seq<Message>>)

  /** One request. `first` and `second` are what the gateway answers to this request's first and
      second call. */
  function Resolve(engaged: bool, msgs: seq<Message>, first: Reply, second: Reply): Outcome {
    if Leading(msgs) < 0 then Outcome(engaged, first, [msgs])
    else if engaged then Outcome(true, first, [Flip(msgs)])
    else if first != Status(BAD_REQUEST) || HasDetails(msgs) then Outcome(false, first, [msgs])
    else Outcome(second.Accepted?, second, [msgs, Flip(msgs)])
  }

  /** What Resolve decides, in terms of the request and the answers. `leads` is where the request's
      first non-system message is an assistant turn, or negative. */
  lemma ResolveMeaning(engaged: bool, msgs: seq<Message>, first: Reply, second: Reply, leads: int)
    requires if leads >= 0 then LeadsAt(msgs, leads) else forall i :: !LeadsAt(msgs, i)
    ensures var o := Resolve(engaged, msgs, first, second);
            var asked := if leads >= 0 then msgs[leads := msgs[leads].(role := "user")] else msgs;
            var resends := leads >= 0 && !engaged && first == Status(400)
                           && forall i :: 0 <= i < |msgs| ==> !msgs[i].details;
            && o.calls == (if resends then [msgs, asked] else if engaged then [asked] else [msgs])
            && o.result == (if resends then second else first)
            && (o.engaged <==> engaged || (resends && second.Accepted?))
  {
    if leads >= 0 { assert LeadsAt(msgs, Leading(msgs)) && Leading(msgs) == leads; }
    assert HasDetails(msgs) <==> exists i :: 0 <= i < |msgs| && msgs[i].details;
  }

  class RoleOrderFallback {
    var engaged: bool

    constructor ()
      ensures !engaged
    {
      engaged := false;
    }

    method Send(msgs: array<Message>, first: Reply, second: Reply)
      returns (result: Reply, calls: seq<seq<Message>>)
      modifies this
      ensures Outcome(engaged, result, calls) == Resolve(old(engaged), msgs[..], first, second)
      ensures msgs[..] == old(msgs[..])
    {
      var i := LeadingAssistant(msgs[..]);
      if i < 0 { return first, [msgs[..]]; }
      var flipped := new Message[msgs.Length](n requires 0 <= n < msgs.Length reads msgs => msgs[n]);
      flipped[i] := flipped[i].(role := "user");
      assert flipped[..] == Flip(msgs[..]);
      if engaged { return first, [flipped[..]]; }
      result, calls := first, [msgs[..]];
      if result.Accepted? { return; }
      if !result.Status? || result.code != BAD_REQUEST { return; }
      if exists m :: m in msgs[..] && m.details { return; }
      result, calls := second, calls + [flipped[..]];
      if !result.Accepted? { return; }
      engaged := true;
    }
  }

  /** The resend keeps every message and every field but one role, and is not assistant-first. */
  lemma FlipChangesOneRole(msgs: seq<Message>)
    requires Leading(msgs) >= 0
    ensures |Flip(msgs)| == |msgs|
    ensures forall j :: 0 <= j < |msgs| ==>
              (Flip(msgs)[j] != msgs[j] <==> LeadsAt(msgs, j))
              && Flip(msgs)[j].content == msgs[j].content && Flip(msgs)[j].details == msgs[j].details
    ensures Flip(msgs)[Leading(msgs)].role == "user"
    ensures Leading(Flip(msgs)) < 0
  {
    var i := Leading(msgs);
    assert LeadsAt(msgs, i);
    assert Flip(msgs)[i].role == "user";
    assert forall k :: LeadsAt(Flip(msgs), k) ==> k < i && LeadsAt(msgs, k);
  }

  // ---------------------------------------------------------------- whole request sequences

  datatype Turn = Turn(msgs: seq<Message>, first: Reply, second: Reply)

  function Serve(engaged: bool, turns: seq<Turn>): (r: seq<Outcome>)
    ensures |r| == |turns|
    decreases |turns|
  {
    if turns == [] then [] else
    var o := Resolve(engaged, turns[0].msgs, turns[0].first, turns[0].second);
    [o] + Serve(o.engaged, turns[1..])
  }

  function ReplyTo(t: Turn, call: nat): Reply {
    if call == 0 then t.first else t.second
  }

  /** Every call this request makes is answered as a gateway answers that refuses exactly the
      assistant-first requests. */
  ghost predicate StrictGateway(t: Turn, o: Outcome) {
    forall c :: 0 <= c < |o.calls| ==>
      if Leading(o.calls[c]) >= 0 then ReplyTo(t, c) == Status(BAD_REQUEST) else ReplyTo(t, c).Accepted?
  }

  /** No assistant-first call of this request is answered with a 400; anything else may happen. */
  ghost predicate LenientGateway(t: Turn, o: Outcome) {
    forall c :: 0 <= c < |o.calls| && Leading(o.calls[c]) >= 0 ==> ReplyTo(t, c) != Status(BAD_REQUEST)
  }

  function Refusals(t: Turn, o: Outcome): nat {
    (if |o.calls| > 0 && t.first == Status(BAD_REQUEST) then 1 else 0)
    + (if |o.calls| > 1 && t.second == Status(BAD_REQUEST) then 1 else 0)
  }

  /** Refused calls over all requests that carry no reasoning details. */
  function PlainRefusals(turns: seq<Turn>, outs: seq<Outcome>): nat
    requires |turns| == |outs|
  {
    if turns == [] then 0
    else (if HasDetails(turns[0].msgs) then 0 else Refusals(turns[0], outs[0]))
         + PlainRefusals(turns[1..], outs[1..])
  }

  ghost predicate SoundOn(turns: seq<Turn>, outs: seq<Outcome>)
    requires |turns| == |outs|
  {
    forall i :: 0 <= i < |turns| ==>
      && 1 <= |outs[i].calls| <= 2
      && (!HasDetails(turns[i].msgs) ==> outs[i].result.Accepted?)
  }

  ghost predicate AllStrict(turns: seq<Turn>, outs: seq<Outcome>)
    requires |turns| == |outs|
  {
    forall i :: 0 <= i < |turns| ==> StrictGateway(turns[i], outs[i])
  }

  lemma OneStrictRequest(engaged: bool, t: Turn)
    requires StrictGateway(t, Resolve(engaged, t.msgs, t.first, t.second))
    ensures var o := Resolve(engaged, t.msgs, t.first, t.second);
            && 1 <= |o.calls| <= 2
            && (!HasDetails(t.msgs) ==> o.result.Accepted?)
            && (engaged ==> o.engaged && o.result.Accepted? && Refusals(t, o) == 0)
            && (!HasDetails(t.msgs) && Refusals(t, o) > 0 ==> Refusals(t, o) == 1 && o.engaged)
  {
    var o := Resolve(engaged, t.msgs, t.first, t.second);
    if Leading(t.msgs) >= 0 { FlipChangesOneRole(t.msgs); }
    assert Leading(o.calls[0]) >= 0 ==> ReplyTo(t, 0) == Status(BAD_REQUEST);
    if |o.calls| == 2 { assert o.calls[1] == Flip(t.msgs); }
  }

  /** Against a gateway that refuses exactly assistant-first requests, every request without
      reasoning details succeeds in at most two calls, and over the whole session at most one call
      of such requests is ever refused. */
  lemma {:induction false} StrictGatewayIsServed(engaged: bool, turns: seq<Turn>)
    requires AllStrict(turns, Serve(engaged, turns))
    ensures SoundOn(turns, Serve(engaged, turns))
    ensures PlainRefusals(turns, Serve(engaged, turns)) <= if engaged then 0 else 1
    decreases |turns|
  {
    if turns != [] {
      var outs := Serve(engaged, turns);
      var o := Resolve(engaged, turns[0].msgs, turns[0].first, turns[0].second);
      assert outs[0] == o && outs[1..] == Serve(o.engaged, turns[1..]);
      OneStrictRequest(engaged, turns[0]);
      forall i | 0 <= i < |turns| - 1 ensures StrictGateway(turns[1..][i], outs[1..][i]) {
        assert StrictGateway(turns[i + 1], outs[i + 1]);
      }
      StrictGatewayIsServed(o.engaged, turns[1..]);
      assert SoundOn(turns[1..], outs[1..]);
      forall i | 0 < i < |turns|
        ensures 1 <= |outs[i].calls| <= 2 && (!HasDetails(turns[i].msgs) ==> outs[i].result.Accepted?)
      {
        assert outs[i] == outs[1..][i - 1] && turns[i] == turns[1..][i - 1];
      }
    }
  }

  /** Against a gateway that never answers an assistant-first request with 400 the wrapper is
      invisible: it makes the caller's call, returns its answer, and never engages. */
  lemma {:induction false} LenientGatewaySeesIdenticalCalls(turns: seq<Turn>)
    requires forall i :: 0 <= i < |turns| ==> LenientGateway(turns[i], Serve(false, turns)[i])
    ensures forall i :: 0 <= i < |turns| ==>
              Serve(false, turns)[i] == Outcome(false, turns[i].first, [turns[i].msgs])
  {
    if turns != [] {
      var outs := Serve(false, turns);
      assert LenientGateway(turns[0], outs[0]);
      assert outs[0].calls[0] == turns[0].msgs;
      assert outs[0] == Outcome(false, turns[0].first, [turns[0].msgs]);
      assert outs[1..] == Serve(false, turns[1..]);
      forall i | 0 <= i < |turns| - 1 ensures LenientGateway(turns[1..][i], outs[1..][i]) {
        assert LenientGateway(turns[i + 1], outs[i + 1]);
      }
      LenientGatewaySeesIdenticalCalls(turns[1..]);
      forall i | 0 < i < |turns| ensures outs[i] == Outcome(false, turns[i].first, [turns[i].msgs]) {
        assert outs[i] == outs[1..][i - 1] && turns[i] == turns[1..][i - 1];
      }
    }
  }
}
