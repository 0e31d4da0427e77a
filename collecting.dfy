/**
 * Gathering the outputs of a list of inputs, each input contributing a
 * (possibly empty) run of outputs in turn: the shape of a loop that appends
 * to a results list. Which outputs are gathered does not depend on the
 * order of the inputs.
 */
module Collecting {

  /** The outputs of `xs` under `f`, input by input. */
  function Gather<T, U>(xs: seq<T>, f: T -> seq<U>): seq<U>
  {
    if xs == [] then [] else Gather(xs[..|xs| - 1], f) + f(xs[|xs| - 1])
  }

  /** Gathering a concatenation gathers its parts in turn. */
  lemma {:induction false} GatherAppend<T, U>(a: seq<T>, b: seq<T>, f: T -> seq<U>)
    ensures Gather(a + b, f) == Gather(a, f) + Gather(b, f)
    decreases |b|
  {
    if b == [] {
      assert a + b == a;
    } else {
      var init := b[..|b| - 1];
      GatherAppend(a, init, f);
      assert (a + b)[..|a + b| - 1] == a + init;
    }
  }

  lemma AppendAssociative<T>(a: seq<T>, b: seq<T>, c: seq<T>)
    ensures (a + b) + c == a + (b + c)
  {
  }

  /** Splits `b` around one occurrence of `x`. */
  lemma TakeOut<T>(b: seq<T>, x: T) returns (left: seq<T>, right: seq<T>)
    requires x in multiset(b)
    ensures b == left + [x] + right
    ensures multiset(left + right) == multiset(b) - multiset{x}
  {
    var i :| 0 <= i < |b| && b[i] == x;
    left, right := b[..i], b[i + 1..];
    assert b == left + [x] + right;
    assert multiset(b) == multiset(left) + multiset{x} + multiset(right);
  }

  /** Gathering a rearrangement of the inputs gathers a rearrangement of the outputs. */
  lemma {:induction false} GatherPermutation<T, U>(a: seq<T>, b: seq<T>, f: T -> seq<U>)
    requires multiset(a) == multiset(b)
    ensures multiset(Gather(a, f)) == multiset(Gather(b, f))
    decreases |a|
  {
    if a == [] {
      assert |multiset(b)| == 0;
    } else {
      var init, x := a[..|a| - 1], a[|a| - 1];
      assert a == init + [x];
      assert multiset(a) == multiset(init) + multiset{x};
      var left, right := TakeOut(b, x);
      GatherPermutation(init, left + right, f);
      GatherAppend(left, right, f);
      GatherAppend(left, [x], f);
      GatherAppend(left + [x], right, f);
      assert Gather([x], f) == f(x) by {
        assert [x][..0] == [];
      }
    }
  }

  /** An output no input yields is never gathered. */
  lemma {:induction false} GatherExcludes<T, U>(xs: seq<T>, f: T -> seq<U>, y: U)
    requires forall x :: x in xs ==> y !in f(x)
    ensures y !in Gather(xs, f)
    decreases |xs|
  {
    if xs != [] {
      GatherExcludes(xs[..|xs| - 1], f, y);
      assert xs[|xs| - 1] in xs;
    }
  }
}
