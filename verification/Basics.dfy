/** Small datatypes shared by the other modules. */
module Basics {

  datatype Option<+T> = None | Some(value: T) {
    predicate IsFailure() {
      None?
    }

    function PropagateFailure<U>(): Option<U>
      requires None?
    {
      None
    }

    function Extract(): T
      requires Some?
    {
      value
    }
  }

  datatype Result<+T, +E> = Ok(value: T) | Err(error: E) {
    predicate IsFailure() {
      Err?
    }

    function PropagateFailure<U>(): Result<U, E>
      requires Err?
    {
      Err(error)
    }

    function Extract(): T
      requires Ok?
    {
      value
    }
  }

  function Min(a: int, b: int): int {
    if a < b then a else b
  }

  function Last<T>(s: seq<T>): T
    requires |s| > 0
  {
    s[|s| - 1]
  }

  /** A loop that stops at the first error; n numbers the elements. */
  function Fold<S, X, E>(step: (S, nat, X) -> Result<S, E>, s: S, n: nat, xs: seq<X>): Result<S, E>
    decreases |xs|
  {
    if xs == [] then Ok(s)
    else
      var t :- step(s, n, xs[0]);
      Fold(step, t, n + 1, xs[1..])
  }

  lemma {:induction false} FoldInTwo<S, X, E>(step: (S, nat, X) -> Result<S, E>, s: S, n: nat, a: seq<X>, b: seq<X>)
    ensures Fold(step, s, n, a + b)
            == var r := Fold(step, s, n, a); if r.Err? then r else Fold(step, r.value, n + |a|, b)
    decreases |a|
  {
    if a == [] {
      assert a + b == b;
    } else {
      assert (a + b)[0] == a[0] && (a + b)[1..] == a[1..] + b;
      var t := step(s, n, a[0]);
      if t.Ok? { FoldInTwo(step, t.value, n + 1, a[1..], b); }
    }
  }

  lemma FoldOne<S, X, E>(step: (S, nat, X) -> Result<S, E>, s: S, n: nat, x: X, t: S)
    requires step(s, n, x) == Ok(t)
    ensures Fold(step, s, n, [x]) == Ok(t)
  {
    assert Fold(step, t, n + 1, [x][1..]) == Ok(t);
  }

  /** One stretch and then another. */
  lemma FoldOn<S, X, E>(step: (S, nat, X) -> Result<S, E>, s: S, n: nat, a: seq<X>, t: S, b: seq<X>, u: S)
    requires Fold(step, s, n, a) == Ok(t) && Fold(step, t, n + |a|, b) == Ok(u)
    ensures Fold(step, s, n, a + b) == Ok(u)
  {
    FoldInTwo(step, s, n, a, b);
  }

  lemma {:induction false} FoldSkips<S, X, E>(step: (S, nat, X) -> Result<S, E>, s: S, n: nat, xs: seq<X>)
    requires forall k: nat, i {:trigger step(s, k, xs[i])} :: 0 <= i < |xs| ==> step(s, k, xs[i]) == Ok(s)
    ensures Fold(step, s, n, xs) == Ok(s)
    decreases |xs|
  {
    if xs != [] {
      assert step(s, n, xs[0]) == Ok(s);
      FoldSkips(step, s, n + 1, xs[1..]);
    }
  }

  function Concat<X>(chunks: seq<seq<X>>): seq<X> {
    if chunks == [] then [] else chunks[0] + Concat(chunks[1..])
  }

  /** Whatever the numbering, the chunk leads from stage j of `at` to the next. */
  ghost predicate Leads<S(!new), X, E>(
      step: (S, nat, X) -> Result<S, E>, at: (nat, S) -> bool, chunk: seq<X>, j: nat) {
    forall t, k: nat {:trigger Fold(step, t, k, chunk)} :: at(j, t) ==>
      Fold(step, t, k, chunk).Ok? && at(j + 1, Fold(step, t, k, chunk).value)
  }

  /** If every chunk leads from one stage of `at` to the next, all of them lead from the first stage to the last. */
  lemma {:induction false} FoldFollows<S(!new), X, E>(
      step: (S, nat, X) -> Result<S, E>, at: (nat, S) -> bool, s: S, n: nat, chunks: seq<seq<X>>, i: nat)
    requires i <= |chunks| && at(i, s)
    requires forall j :: 0 <= j < |chunks| ==> Leads(step, at, chunks[j], j)
    ensures var r := Fold(step, s, n, Concat(chunks[i..])); r.Ok? && at(|chunks|, r.value)
    decreases |chunks| - i
  {
    if i < |chunks| {
      assert Leads(step, at, chunks[i], i);
      var r := Fold(step, s, n, chunks[i]);
      assert chunks[i..][0] == chunks[i] && chunks[i..][1..] == chunks[i + 1..];
      FoldInTwo(step, s, n, chunks[i], Concat(chunks[i + 1..]));
      FoldFollows(step, at, r.value, n + |chunks[i]|, chunks, i + 1);
    }
  }
}
