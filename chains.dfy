/**
 * Builder chains in general: a sequence of calls applied one after another,
 * from the left, as in `new().hovered().border_width(w)`.
 */
module Chains {
  import opened Wrappers

  /** The calls applied to `s` from left to right, each by `step`. */
  function Fold<S, C>(step: (S, C) -> S, s: S, calls: seq<C>): S
    decreases |calls|
  {
    if calls == [] then s else Fold(step, step(s, calls[0]), calls[1..])
  }

  /** Running a chain in two pieces is running it whole. */
  lemma {:induction false} FoldAppend<S, C>(step: (S, C) -> S, s: S, xs: seq<C>, ys: seq<C>)
    ensures Fold(step, s, xs + ys) == Fold(step, Fold(step, s, xs), ys)
    decreases |xs|
  {
    if xs == [] {
      assert xs + ys == ys;
    } else {
      assert (xs + ys)[0] == xs[0] && (xs + ys)[1..] == xs[1..] + ys;
      FoldAppend(step, step(s, xs[0]), xs[1..], ys);
    }
  }

  /** A property that every call keeps holds after any chain. */
  lemma {:induction false} FoldKeeps<S, C>(step: (S, C) -> S, keeps: S -> bool, s: S, calls: seq<C>)
    requires keeps(s)
    requires forall s', c :: keeps(s') ==> keeps(step(s', c))
    ensures keeps(Fold(step, s, calls))
    decreases |calls|
  {
    if calls != [] {
      FoldKeeps(step, keeps, step(s, calls[0]), calls[1..]);
    }
  }

  /** The value named by the last call of `calls` that `picks` names one for, or `initial` when none does. */
  function LastPicked<C, T>(picks: C -> Option<T>, calls: seq<C>, initial: T): T
    decreases |calls|
  {
    if calls == [] then initial
    else if picks(calls[|calls| - 1]).Some? then picks(calls[|calls| - 1]).value
    else LastPicked(picks, calls[..|calls| - 1], initial)
  }

  /**
   * When every call either sets the observed value `view` to the one `picks` names or leaves it
   * alone, the value after a chain is the one named last.
   */
  lemma {:induction false} FoldLastPicked<S, C, T>(
    step: (S, C) -> S, view: S -> T, picks: C -> Option<T>, s: S, calls: seq<C>)
    requires forall s', c :: view(step(s', c)) == picks(c).UnwrapOr(view(s'))
    ensures view(Fold(step, s, calls)) == LastPicked(picks, calls, view(s))
    decreases |calls|
  {
    if calls != [] {
      var init, last := calls[..|calls| - 1], calls[|calls| - 1];
      assert calls == init + [last];
      FoldAppend(step, s, init, [last]);
      assert Fold(step, Fold(step, s, init), [last]) == step(Fold(step, s, init), last);
      FoldLastPicked(step, view, picks, s, init);
    }
  }
}
