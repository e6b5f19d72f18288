/** JavaScript numbers as used by the weighing views: exact reals plus the NaN
    that `parseFloat` produces for unparsable input. IEEE-754 rounding and the
    infinities are not modelled. */
module Numbers {

  datatype Num = Fin(val: real) | NaN

  /** `a + b`: NaN is absorbing. */
  function Add(a: Num, b: Num): (r: Num)
    ensures r.NaN? <==> a.NaN? || b.NaN?
    ensures r.Fin? ==> r.val == a.val + b.val
  {
    if a.Fin? && b.Fin? then Fin(a.val + b.val) else NaN
  }

  /** `a - b`: NaN is absorbing. */
  function Sub(a: Num, b: Num): (r: Num)
    ensures r.NaN? <==> a.NaN? || b.NaN?
    ensures r.Fin? ==> r.val == a.val - b.val
  {
    if a.Fin? && b.Fin? then Fin(a.val - b.val) else NaN
  }

  /** `x >= 0`: every comparison with NaN is false. */
  predicate NonNegative(x: Num) {
    x.Fin? && x.val >= 0.0
  }

  /** `x > 0`: every comparison with NaN is false. */
  predicate Positive(x: Num) {
    x.Fin? && x.val > 0.0
  }

  /** `n || 0` on a number: 0 and NaN are the falsy numbers, both become 0. */
  function OrZero(n: Num): (r: Num)
    ensures r.Fin?
    ensures n.Fin? ==> r == n
    ensures n.NaN? ==> r == Fin(0.0)
  {
    if n.Fin? && n.val != 0.0 then n else Fin(0.0)
  }

  /** `xs.reduce((sum, x) => sum + x, 0)`: a left fold starting at 0. */
  function Sum(xs: seq<Num>): Num
  {
    if |xs| == 0 then Fin(0.0) else Add(Sum(xs[..|xs| - 1]), xs[|xs| - 1])
  }

  /** The sum is NaN exactly when one of the summands is. */
  lemma {:induction false} SumNaN(xs: seq<Num>)
    ensures Sum(xs).NaN? <==> exists i :: 0 <= i < |xs| && xs[i].NaN?
  {
    if |xs| > 0 {
      var init := xs[..|xs| - 1];
      SumNaN(init);
      if exists i :: 0 <= i < |init| && init[i].NaN? {
        var i :| 0 <= i < |init| && init[i].NaN?;
        assert xs[i] == init[i];
      }
      if exists i :: 0 <= i < |xs| && xs[i].NaN? {
        var i :| 0 <= i < |xs| && xs[i].NaN?;
        if i < |init| {
          assert init[i] == xs[i];
        }
      }
    }
  }

  /** Summing a concatenation is adding the sums of the parts. */
  lemma {:induction false} SumAppend(a: seq<Num>, b: seq<Num>)
    ensures Sum(a + b) == Add(Sum(a), Sum(b))
  {
    if |b| == 0 {
      assert a + b == a;
      AddZeroRight(Sum(a));
    } else {
      var ab := a + b;
      assert ab[..|ab| - 1] == a + b[..|b| - 1];
      assert ab[|ab| - 1] == b[|b| - 1];
      SumAppend(a, b[..|b| - 1]);
      AddAssociative(Sum(a), Sum(b[..|b| - 1]), b[|b| - 1]);
    }
  }

  /** The sum of a sequence does not depend on the order of its elements. */
  lemma {:induction false} SumPermutation(xs: seq<Num>, ys: seq<Num>)
    requires multiset(xs) == multiset(ys)
    ensures Sum(xs) == Sum(ys)
  {
    if |xs| == 0 {
      assert |ys| == |multiset(ys)| == 0;
    } else {
      var x := xs[|xs| - 1];
      var init := xs[..|xs| - 1];
      assert xs == init + [x];
      assert multiset(init) == multiset(xs) - multiset{x};
      assert x in multiset(ys);
      var j :| 0 <= j < |ys| && ys[j] == x;
      MultisetRemove(ys, j);
      SumPermutation(init, ys[..j] + ys[j + 1..]);
      SumRemove(ys, j);
    }
  }

  /** Removing the element at `j` removes one occurrence of it. */
  lemma MultisetRemove<T>(ys: seq<T>, j: nat)
    requires j < |ys|
    ensures multiset(ys[..j] + ys[j + 1..]) == multiset(ys) - multiset{ys[j]}
  {
    assert ys == ys[..j] + [ys[j]] + ys[j + 1..];
  }

  /** Any one summand can be added last. */
  lemma SumRemove(ys: seq<Num>, j: nat)
    requires j < |ys|
    ensures Sum(ys) == Add(Sum(ys[..j] + ys[j + 1..]), ys[j])
  {
    var a, x, b := ys[..j], ys[j], ys[j + 1..];
    calc {
      Sum(ys);
      { assert ys == a + ([x] + b); }
      Sum(a + ([x] + b));
      { SumAppend(a, [x] + b); }
      Add(Sum(a), Sum([x] + b));
      { SumAppend([x], b); SumSingle(x); }
      Add(Sum(a), Add(x, Sum(b)));
      { AddCommutative(x, Sum(b)); }
      Add(Sum(a), Add(Sum(b), x));
      { AddAssociative(Sum(a), Sum(b), x); }
      Add(Add(Sum(a), Sum(b)), x);
      { SumAppend(a, b); }
      Add(Sum(a + b), x);
    }
  }

  lemma SumSingle(x: Num)
    ensures Sum([x]) == x
  {
    assert [x][..0] == [];
    AddZeroLeft(x);
  }

  /** Two sequences that differ at most in their first element. */
  lemma SumSameTail(xs: seq<Num>, ys: seq<Num>)
    requires |xs| == |ys| > 0 && xs[1..] == ys[1..]
    ensures Sum(xs) == Add(Sum(ys[1..]), xs[0])
    ensures Sum(ys) == Add(Sum(ys[1..]), ys[0])
  {
    SumRemove(xs, 0);
    assert xs[..0] + xs[1..] == xs[1..];
    SumRemove(ys, 0);
    assert ys[..0] + ys[1..] == ys[1..];
  }

  lemma AddAssociative(a: Num, b: Num, c: Num)
    ensures Add(Add(a, b), c) == Add(a, Add(b, c))
  {
  }

  lemma AddCommutative(a: Num, b: Num)
    ensures Add(a, b) == Add(b, a)
  {
  }

  lemma AddZeroLeft(a: Num)
    ensures Add(Fin(0.0), a) == a
  {
  }

  lemma AddZeroRight(a: Num)
    ensures Add(a, Fin(0.0)) == a
  {
  }
}
