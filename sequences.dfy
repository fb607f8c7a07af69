/** Sequence and string assembly shared by the merger and the text-corpus builder. */
module Sequences {

  /** The concatenation of `f(x)` over `xs`, in order: what a loop doing `acc += f(x)` builds. */
  function Concat<T, U>(xs: seq<T>, f: T -> seq<U>): seq<U>
  {
    if xs == [] then [] else Concat(xs[..|xs| - 1], f) + f(xs[|xs| - 1])
  }

  /** Concatenation distributes over appending the inputs. */
  lemma {:induction false} ConcatAppend<T, U>(a: seq<T>, b: seq<T>, f: T -> seq<U>)
    ensures Concat(a + b, f) == Concat(a, f) + Concat(b, f)
    decreases |b|
  {
    if b == [] {
      assert a + b == a;
    } else {
      var n := |b| - 1;
      assert (a + b)[..|a + b| - 1] == a + b[..n];
      ConcatAppend(a, b[..n], f);
    }
  }

  /** One more step of the accumulating loop. */
  lemma ConcatStep<T, U>(xs: seq<T>, i: nat, f: T -> seq<U>)
    requires i < |xs|
    ensures Concat(xs[..i + 1], f) == Concat(xs[..i], f) + f(xs[i])
  {
    assert xs[..i + 1][..i] == xs[..i];
  }

  /** Concatenations agree when the pieces agree position by position. */
  lemma {:induction false} ConcatPointwise<T, S, U>(xs: seq<T>, f: T -> seq<U>, ys: seq<S>, g: S -> seq<U>)
    requires |xs| == |ys|
    requires forall i :: 0 <= i < |xs| ==> f(xs[i]) == g(ys[i])
    ensures Concat(xs, f) == Concat(ys, g)
    decreases |xs|
  {
    if xs != [] {
      ConcatPointwise(xs[..|xs| - 1], f, ys[..|ys| - 1], g);
    }
  }

  /** Flattening then mapping is mapping each part and flattening: Concat(Concat(xs, f), g) == Concat(xs, h). */
  lemma {:induction false} ConcatFlatten<T, U, V>(xs: seq<T>, f: T -> seq<U>, g: U -> seq<V>, h: T -> seq<V>)
    requires forall x :: x in xs ==> h(x) == Concat(f(x), g)
    ensures Concat(Concat(xs, f), g) == Concat(xs, h)
    decreases |xs|
  {
    if xs != [] {
      var n := |xs| - 1;
      ConcatFlatten(xs[..n], f, g, h);
      ConcatAppend(Concat(xs[..n], f), f(xs[n]), g);
    }
  }

  /** The strings of `ts` separated by single spaces, as `'{} {}'.format` builds them pairwise. */
  function Join(ts: seq<string>): string
  {
    if ts == [] then []
    else if |ts| == 1 then ts[0]
    else Join(ts[..|ts| - 1]) + " " + ts[|ts| - 1]
  }

  /** Joining two non-empty lists is joining their joins with one space. */
  lemma {:induction false} JoinAppend(a: seq<string>, b: seq<string>)
    requires a != [] && b != []
    ensures Join(a + b) == Join(a) + " " + Join(b)
    decreases |b|
  {
    var n := |b| - 1;
    assert (a + b)[..|a + b| - 1] == a + b[..n];
    if n == 0 {
      assert b == [b[0]];
    } else {
      JoinAppend(a, b[..n]);
    }
  }
}
