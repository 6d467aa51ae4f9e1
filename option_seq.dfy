/**
 * Swift's `compactMap` over already-mapped values: a sequence of optionals keeps its present values,
 * in order.
 */
module OptionSeq {
  import opened Wrappers

  /** An optional value as a list of at most one element. */
  function Present<T>(o: Option<T>): (r: seq<T>)
    ensures o.Some? ==> r == [o.value]
    ensures o.None? ==> r == []
  {
    if o.Some? then [o.value] else []
  }

  /** `compactMap`'s first half: `f` applied to each element, in order. */
  function MapSeq<A, B>(xs: seq<A>, f: A -> B): (r: seq<B>)
    ensures |r| == |xs| && forall i | 0 <= i < |xs| :: r[i] == f(xs[i])
  {
    seq(|xs|, i requires 0 <= i < |xs| => f(xs[i]))
  }

  /** Mapping distributes over concatenation. */
  lemma MapSeqAppend<A, B>(a: seq<A>, b: seq<A>, f: A -> B)
    ensures MapSeq(a + b, f) == MapSeq(a, f) + MapSeq(b, f)
  {
    forall i | 0 <= i < |a + b|
      ensures MapSeq(a + b, f)[i] == (MapSeq(a, f) + MapSeq(b, f))[i]
    {
      if i < |a| {
        assert (a + b)[i] == a[i];
      } else {
        assert (a + b)[i] == b[i - |a|];
      }
    }
  }

  /** `compactMap`'s second half: the present values, in order. */
  function Compact<T>(xs: seq<Option<T>>): (r: seq<T>)
    ensures |r| <= |xs|
    ensures forall x | x in r :: Some(x) in xs
  {
    if xs == [] then []
    else
      var init := xs[..|xs| - 1];
      assert forall y | y in init :: y in xs;
      Compact(init) + Present(xs[|xs| - 1])
  }

  lemma {:induction false} CompactAppend<T>(a: seq<Option<T>>, b: seq<Option<T>>)
    ensures Compact(a + b) == Compact(a) + Compact(b)
    decreases |b|
  {
    if b == [] {
      assert a + b == a;
    } else {
      var b' := b[..|b| - 1];
      assert (a + b)[..|a + b| - 1] == a + b';
      CompactAppend(a, b');
    }
  }

  /** When every value is present, `Compact` unwraps them all. */
  lemma {:induction false} CompactAllPresent<T>(xs: seq<Option<T>>, ys: seq<T>)
    requires |xs| == |ys| && forall i | 0 <= i < |xs| :: xs[i] == Some(ys[i])
    ensures Compact(xs) == ys
    decreases |xs|
  {
    if xs != [] {
      var n := |xs| - 1;
      CompactAllPresent(xs[..n], ys[..n]);
      assert ys == ys[..n] + [ys[n]];
    }
  }

  /** Each kept value comes from some position, and each present position's value is kept. */
  lemma {:induction false} CompactContains<T>(xs: seq<Option<T>>, x: T)
    ensures x in Compact(xs) <==> Some(x) in xs
    decreases |xs|
  {
    if xs != [] {
      var init := xs[..|xs| - 1];
      CompactContains(init, x);
      assert xs == init + [xs[|xs| - 1]];
    }
  }
}
