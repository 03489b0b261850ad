/** Sums and arithmetic means over the summaries of several trials (the
    `agregados` blocks of the exercise pages add a field over all trials and
    divide by the number of trials), and amounts of counted items at a unit
    price. */
module Stats {

  /** Left-to-right sum, in the order the aggregation loops add. */
  function Sum(xs: seq<real>): real
  {
    if xs == [] then 0.0 else Sum(xs[..|xs| - 1]) + xs[|xs| - 1]
  }

  function Mean(xs: seq<real>): real
    requires xs != []
  {
    Sum(xs) / (|xs| as real)
  }

  /** Extending a prefix by one element extends its sum by that element; the
      invariant step of every aggregation loop. */
  lemma SumSnoc(xs: seq<real>, i: nat)
    requires i < |xs|
    ensures Sum(xs[..i + 1]) == Sum(xs[..i]) + xs[i]
  {
    assert xs[..i + 1][..i] == xs[..i];
  }

  /** Bounds on every element bound the sum. */
  lemma {:induction false} SumBounds(xs: seq<real>, lo: real, hi: real)
    requires forall i :: 0 <= i < |xs| ==> lo <= xs[i] <= hi
    ensures (|xs| as real) * lo <= Sum(xs) <= (|xs| as real) * hi
  {
    if xs != [] {
      var n := |xs| - 1;
      SumBounds(xs[..n], lo, hi);
      assert (|xs| as real) * lo == (n as real) * lo + lo;
      assert (|xs| as real) * hi == (n as real) * hi + hi;
    }
  }

  /** The mean lies between the smallest and the largest bound of the values
      averaged. */
  lemma MeanBounds(xs: seq<real>, lo: real, hi: real)
    requires xs != []
    requires forall i :: 0 <= i < |xs| ==> lo <= xs[i] <= hi
    ensures lo <= Mean(xs) <= hi
  {
    SumBounds(xs, lo, hi);
    var n := |xs| as real;
    assert Sum(xs) / n >= lo by {
      assert n * lo <= Sum(xs);
      assert (n * lo) / n == lo;
    }
    assert Sum(xs) / n <= hi by {
      assert Sum(xs) <= n * hi;
      assert (n * hi) / n == hi;
    }
  }

  /** Values that are not negative have a mean that is not negative. */
  lemma {:induction false} SumNonNeg(xs: seq<real>)
    requires forall i :: 0 <= i < |xs| ==> 0.0 <= xs[i]
    ensures 0.0 <= Sum(xs)
  {
    if xs != [] {
      SumNonNeg(xs[..|xs| - 1]);
    }
  }

  lemma MeanNonNeg(xs: seq<real>)
    requires xs != []
    requires forall i :: 0 <= i < |xs| ==> 0.0 <= xs[i]
    ensures 0.0 <= Mean(xs)
  {
    SumNonNeg(xs);
  }

  /** The sum of an affine image of a column is the affine image of its sum. */
  lemma {:induction false} SumAffine(xs: seq<real>, a: real, b: real, ys: seq<real>)
    requires |xs| == |ys|
    requires forall i :: 0 <= i < |ys| ==> ys[i] == a + b * xs[i]
    ensures Sum(ys) == (|ys| as real) * a + b * Sum(xs)
  {
    if ys != [] {
      var n := |ys| - 1;
      SumAffine(xs[..n], a, b, ys[..n]);
      AffineStep(n as real, a, b, Sum(xs[..n]), xs[n]);
    }
  }

  /** One more element: `n*a + b*s` grown by `a + b*x`. */
  lemma AffineStep(n: real, a: real, b: real, s: real, x: real)
    ensures n * a + b * s + (a + b * x) == (n + 1.0) * a + b * (s + x)
  {
  }

  /** The mean commutes with an affine map. */
  lemma MeanAffine(xs: seq<real>, a: real, b: real, ys: seq<real>)
    requires |xs| == |ys| && ys != []
    requires forall i :: 0 <= i < |ys| ==> ys[i] == a + b * xs[i]
    ensures Mean(ys) == a + b * Mean(xs)
  {
    SumAffine(xs, a, b, ys);
    DivAffine(|ys| as real, a, b, Sum(xs));
  }

  /** Dividing `n*a + b*s` by `n` gives `a + b*(s/n)`. */
  lemma DivAffine(n: real, a: real, b: real, s: real)
    requires n > 0.0
    ensures (n * a + b * s) / n == a + b * (s / n)
  {
    var q := s / n;
    assert s == q * n;
    assert n * a + b * s == (a + b * q) * n;
  }

  /** The sum of differences is the difference of the sums. */
  lemma {:induction false} SumDiff(xs: seq<real>, ys: seq<real>, zs: seq<real>)
    requires |xs| == |ys| == |zs|
    requires forall i :: 0 <= i < |zs| ==> zs[i] == xs[i] - ys[i]
    ensures Sum(zs) == Sum(xs) - Sum(ys)
  {
    if zs != [] {
      var n := |zs| - 1;
      SumDiff(xs[..n], ys[..n], zs[..n]);
    }
  }

  /** The mean of differences is the difference of the means. */
  lemma MeanDiff(xs: seq<real>, ys: seq<real>, zs: seq<real>)
    requires |xs| == |ys| == |zs| && zs != []
    requires forall i :: 0 <= i < |zs| ==> zs[i] == xs[i] - ys[i]
    ensures Mean(zs) == Mean(xs) - Mean(ys)
  {
    SumDiff(xs, ys, zs);
    var n := |zs| as real;
    assert (Sum(xs) - Sum(ys)) / n == Sum(xs) / n - Sum(ys) / n;
  }

  /** Values that are `n` times smaller have an `n` times smaller mean. */
  lemma MeanScaled(xs: seq<real>, ys: seq<real>, n: real)
    requires |xs| == |ys| && ys != [] && n > 0.0
    requires forall i :: 0 <= i < |ys| ==> ys[i] * n == xs[i]
    ensures Mean(ys) * n == Mean(xs)
  {
    forall i | 0 <= i < |ys|
      ensures ys[i] == 0.0 + (1.0 / n) * xs[i]
    {
      ScaledBack(ys[i], xs[i], n);
    }
    MeanAffine(xs, 0.0, 1.0 / n, ys);
    ScaledBack(Mean(ys), Mean(xs), n);
  }

  /** `y * n == x` and `y == x / n` say the same for `n > 0`. */
  lemma ScaledBack(y: real, x: real, n: real)
    requires n > 0.0
    ensures y * n == x <==> y == 0.0 + (1.0 / n) * x
  {
    if y * n == x {
      assert y == x / n;
    }
  }

  /** `n * price` for a count `n` of items, written as `n` additions of the
      price (see `AtPriceIsProduct`); the exercise pages multiply counts by prices. */
  function AtPrice(n: nat, price: real): real {
    if n == 0 then 0.0 else AtPrice(n - 1, price) + price
  }

  /** The amount of `n` items at a unit price is their product with it. */
  lemma {:induction false} AtPriceIsProduct(n: nat, price: real)
    ensures AtPrice(n, price) == n as real * price
  {
    if n > 0 {
      AtPriceIsProduct(n - 1, price);
      assert n as real * price == (n - 1) as real * price + price;
    }
  }

  /** Amounts at a unit price add up like the items they count. */
  lemma {:induction false} AtPriceAdd(a: nat, b: nat, price: real)
    ensures AtPrice(a + b, price) == AtPrice(a, price) + AtPrice(b, price)
  {
    if b > 0 {
      AtPriceAdd(a, b - 1, price);
    }
  }
}
