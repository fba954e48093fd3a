/** Runs of a transition system that is given by its partial step function, and the part of a run that one actor
    takes. */
module Runs {
  import opened Common

  /** The state after the steps of `tr`, if each was possible when its turn came. */
  function Run<S, T>(next: (S, T) -> Option<S>, s: S, tr: seq<T>): Option<S> {
    if tr == [] then Some(s) else
    var before := Run(next, s, tr[..|tr| - 1]);
    if before.Some? then next(before.value, tr[|tr| - 1]) else None
  }

  lemma RunOne<S, T>(next: (S, T) -> Option<S>, s: S, tr: seq<T>, step: T)
    requires Run(next, s, tr).Some?
    ensures Run(next, s, tr + [step]) == next(Run(next, s, tr).value, step)
  {
    assert (tr + [step])[..|tr|] == tr;
  }

  lemma {:induction false} RunConcat<S, T>(next: (S, T) -> Option<S>, s: S, a: seq<T>, b: seq<T>)
    requires Run(next, s, a).Some?
    ensures Run(next, s, a + b) == Run(next, Run(next, s, a).value, b)
    decreases |b|
  {
    if b == [] {
      assert a + b == a;
    } else {
      var front := b[..|b| - 1];
      assert (a + b)[..|a + b| - 1] == a + front;
      RunConcat(next, s, a, front);
    }
  }

  // Every prefix of a run is a run, and consecutive prefixes are one step apart.
  lemma {:induction false} RunPrefix<S, T>(next: (S, T) -> Option<S>, s: S, tr: seq<T>, i: nat)
    requires Run(next, s, tr).Some? && i <= |tr|
    ensures Run(next, s, tr[..i]).Some?
    ensures i < |tr| ==>
              && Run(next, s, tr[..i + 1]).Some?
              && Run(next, s, tr[..i + 1]) == next(Run(next, s, tr[..i]).value, tr[i])
    decreases |tr|
  {
    if i == |tr| {
      assert tr[..i] == tr;
    } else {
      var front := tr[..|tr| - 1];
      RunPrefix(next, s, front, i);
      assert front[..i] == tr[..i];
      if i + 1 < |tr| {
        assert front[..i + 1] == tr[..i + 1];
      } else {
        assert tr[..i + 1] == tr && tr[..i] == front;
      }
    }
  }

  // The steps of a run that satisfy `mine`.
  function Filter<T>(tr: seq<T>, mine: T -> bool): seq<T> {
    if tr == [] then [] else
    var front, last := Filter(tr[..|tr| - 1], mine), tr[|tr| - 1];
    if mine(last) then front + [last] else front
  }

  lemma {:induction false} FilterConcat<T>(a: seq<T>, b: seq<T>, mine: T -> bool)
    ensures Filter(a + b, mine) == Filter(a, mine) + Filter(b, mine)
    decreases |b|
  {
    if b == [] {
      assert a + b == a;
    } else {
      var front := b[..|b| - 1];
      assert (a + b)[..|a + b| - 1] == a + front;
      FilterConcat(a, front, mine);
    }
  }

  // One run after another, and what one actor does in both.
  lemma Join<S, T>(next: (S, T) -> Option<S>, s: S, a: seq<T>, mid: S, b: seq<T>, mine: T -> bool)
    requires Run(next, s, a) == Some(mid)
    ensures Run(next, s, a + b) == Run(next, mid, b)
    ensures Filter(a + b, mine) == Filter(a, mine) + Filter(b, mine)
  {
    RunConcat(next, s, a, b);
    FilterConcat(a, b, mine);
  }
}
