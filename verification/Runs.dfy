/** Runs of any state machine, given by its step function, and the induction over them. */
module Runs {
  import opened Common

  /** The state after the first `n` events, if each of them could happen. */
  ghost function At<S, E>(next: (S, E) -> Option<S>, s: S, es: seq<E>, n: nat): Option<S>
    requires n <= |es|
  {
    if n == 0 then Some(s)
    else
      match At(next, s, es, n - 1)
      case None => None
      case Some(m) => next(m, es[n - 1])
  }

  lemma {:induction false} AtPrefix<S, E>(next: (S, E) -> Option<S>, s: S, es: seq<E>, e: E, n: nat)
    requires n <= |es|
    ensures At(next, s, es + [e], n) == At(next, s, es, n)
  {
    if n > 0 {
      AtPrefix(next, s, es, e, n - 1);
    }
  }

  lemma AtAppend<S, E>(next: (S, E) -> Option<S>, s: S, es: seq<E>, e: E, m: S)
    requires At(next, s, es, |es|) == Some(m)
    ensures At(next, s, es + [e], |es + [e]|) == next(m, e)
  {
    AtPrefix(next, s, es, e, |es|);
  }

  /** What a state satisfies and every step keeps holds in every state of a run from it. */
  lemma {:induction false} Kept<S(!new), E(!new)>(
      next: (S, E) -> Option<S>, inv: S -> bool, s: S, es: seq<E>, n: nat)
    requires n <= |es| && inv(s) && At(next, s, es, n).Some?
    requires forall p, e :: inv(p) && next(p, e).Some? ==> inv(next(p, e).value)
    ensures inv(At(next, s, es, n).value)
  {
    if n > 0 {
      Kept(next, inv, s, es, n - 1);
    }
  }
}
