/** Option, Result and the few facts about sequences that several components share. */
module Base {

  datatype Option<+T> = None | Some(value: T)

  datatype Result<+T, +E> = Ok(value: T) | Err(error: E)

  ghost predicate Distinct<T>(s: seq<T>) {
    forall i, j :: 0 <= i < j < |s| ==> s[i] != s[j]
  }

  /** How often `x` occurs in `s`; peels the last element, so appending is one unfolding. */
  function Count<T(==)>(s: seq<T>, x: T): nat {
    if s == [] then 0
    else Count(s[..|s| - 1], x) + if s[|s| - 1] == x then 1 else 0
  }

  lemma CountAppend<T>(s: seq<T>, e: T, x: T)
    ensures Count(s + [e], x) == Count(s, x) + if e == x then 1 else 0
  {
    assert (s + [e])[..|s|] == s;
  }

  lemma {:induction false} CountPositive<T>(s: seq<T>, x: T)
    ensures x in s <==> Count(s, x) > 0
  {
    if s != [] {
      CountPositive(s[..|s| - 1], x);
      assert s == s[..|s| - 1] + [s[|s| - 1]];
    }
  }

  lemma {:induction false} CountDistinct<T>(s: seq<T>, x: T)
    requires Distinct(s)
    ensures Count(s, x) == if x in s then 1 else 0
  {
    if s != [] {
      var t := s[..|s| - 1];
      assert s == t + [s[|s| - 1]];
      CountDistinct(t, x);
    }
  }

  lemma {:induction false} CountConcat<T>(s: seq<T>, t: seq<T>, x: T)
    ensures Count(s + t, x) == Count(s, x) + Count(t, x)
  {
    if t == [] {
      assert s + t == s;
    } else {
      var u := t[..|t| - 1];
      CountConcat(s, u, x);
      assert (s + t)[..|s + t| - 1] == s + u;
    }
  }

  lemma {:induction false} SubsetSize<T>(a: set<T>, b: set<T>)
    requires a <= b
    ensures |a| <= |b|
  {
    if a != {} {
      var x :| x in a;
      SubsetSize(a - {x}, b - {x});
    }
  }

  ghost function Iterate<S>(step: S -> S, s: S, n: nat): S {
    if n == 0 then s else step(Iterate(step, s, n - 1))
  }

  lemma {:induction false} IterateKeeps<S(!new)>(step: S -> S, inv: S -> bool, s: S, n: nat)
    requires inv(s) && forall t :: inv(t) ==> inv(step(t))
    ensures inv(Iterate(step, s, n))
  {
    if n > 0 {
      IterateKeeps(step, inv, s, n - 1);
    }
  }

  /** Repeats `step` until it gives an ending; after `left` times the ending is `last`. */
  function Repeat<S, E>(step: (nat, S) -> (S, Option<E>), last: E, k: nat, left: nat, s: S): (S, E)
    decreases left
  {
    if left == 0 then (s, last)
    else
      match step(k, s)
      case (s', Some(ending)) => (s', ending)
      case (s', None) => Repeat(step, last, k + 1, left - 1, s')
  }

  /** From a state that meets `inv`, repetition `i` keeps it or ends as `ends` says. */
  ghost predicate KeepsOrEnds<S, E>(step: (nat, S) -> (S, Option<E>), inv: (nat, S) -> bool,
                                   ends: (S, E) -> bool, i: nat, s: S)
  {
    inv(i, s) ==>
      match step(i, s)
      case (s', Some(ending)) => ends(s', ending)
      case (s', None) => inv(i + 1, s')
  }

  lemma {:induction false} RepeatKeeps<S(!new), E(!new)>(step: (nat, S) -> (S, Option<E>), last: E,
                                                         inv: (nat, S) -> bool, ends: (S, E) -> bool,
                                                         k: nat, left: nat, s: S)
    requires inv(k, s)
    requires forall i: nat, t: S :: k <= i < k + left ==> KeepsOrEnds(step, inv, ends, i, t)
    requires forall t: S :: inv(k + left, t) ==> ends(t, last)
    ensures var (s', ending) := Repeat(step, last, k, left, s); ends(s', ending)
    decreases left
  {
    if left > 0 {
      assert KeepsOrEnds(step, inv, ends, k, s);
      if step(k, s).1.None? {
        RepeatKeeps(step, last, inv, ends, k + 1, left - 1, step(k, s).0);
      }
    }
  }

  /** The state after all of `es`, in order; peels the last one. */
  function Fold<S, E>(step: (S, E) -> S, s: S, es: seq<E>): S {
    if es == [] then s else step(Fold(step, s, es[..|es| - 1]), es[|es| - 1])
  }

  lemma FoldAppend<S, E>(step: (S, E) -> S, s: S, es: seq<E>, e: E)
    ensures Fold(step, s, es + [e]) == step(Fold(step, s, es), e)
  {
    assert (es + [e])[..|es|] == es;
  }

  lemma FoldTwo<S, E>(step: (S, E) -> S, s: S, es: seq<E>, k: nat)
    requires k + 2 <= |es|
    ensures Fold(step, s, es[..k + 2]) == step(step(Fold(step, s, es[..k]), es[k]), es[k + 1])
  {
    assert es[..k + 1] == es[..k] + [es[k]] && es[..k + 2] == es[..k + 1] + [es[k + 1]];
    FoldAppend(step, s, es[..k], es[k]);
    FoldAppend(step, s, es[..k + 1], es[k + 1]);
  }

  lemma FoldFour<S, E>(step: (S, E) -> S, s: S, e0: E, e1: E, e2: E, e3: E)
    ensures Fold(step, s, [e0, e1, e2, e3]) == step(step(step(step(s, e0), e1), e2), e3)
  {
    var es := [e0, e1, e2, e3];
    assert es[..0] == [] && es[..4] == es;
    FoldTwo(step, s, es, 0);
    FoldTwo(step, s, es, 2);
  }

  lemma {:induction false} FoldConcat<S, E>(step: (S, E) -> S, s: S, first: seq<E>, second: seq<E>)
    ensures Fold(step, s, first + second) == Fold(step, Fold(step, s, first), second)
  {
    if second == [] {
      assert first + second == first;
    } else {
      var all := first + second;
      FoldConcat(step, s, first, second[..|second| - 1]);
      assert all[..|all| - 1] == first + second[..|second| - 1];
    }
  }
}
