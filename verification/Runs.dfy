/** Runs of a step machine: `next` is what an action makes of a state, None where it is not enabled. */
module Runs {
  import opened Options

  ghost function After<S, A>(next: (S, A) -> Option<S>, s: S, acts: seq<A>): Option<S>
    decreases |acts|
  {
    if acts == [] then Some(s) else
    match next(s, acts[0])
    case None => None
    case Some(s') => After(next, s', acts[1..])
  }

  /** One run, then another. */
  lemma {:induction false} Then<S, A>(next: (S, A) -> Option<S>, s: S, a: seq<A>, mid: S, b: seq<A>)
    requires After(next, s, a) == Some(mid)
    ensures After(next, s, a + b) == After(next, mid, b)
    decreases |a|
  {
    if a == [] {
      assert a + b == b;
    } else {
      assert (a + b)[1..] == a[1..] + b;
      Then(next, next(s, a[0]).value, a[1..], mid, b);
    }
  }

  /** A run and its last step. */
  lemma {:induction false} Last<S, A>(next: (S, A) -> Option<S>, s: S, acts: seq<A>)
    requires acts != []
    ensures After(next, s, acts) ==
              match After(next, s, acts[..|acts| - 1])
              case None => None
              case Some(mid) => next(mid, acts[|acts| - 1])
    decreases |acts|
  {
    if |acts| > 1 {
      assert acts[1..][..|acts| - 2] == acts[..|acts| - 1][1..];
      if next(s, acts[0]).Some? { Last(next, next(s, acts[0]).value, acts[1..]); }
    }
  }

  /** A run of one step. */
  lemma One<S, A>(next: (S, A) -> Option<S>, s: S, a: A)
    ensures After(next, s, [a]) == next(s, a)
  {
    assert [a][1..] == [];
  }
}
