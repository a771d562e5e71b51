/**
  Spectra on a shared grid and the arithmetic the pipeline performs on them.

  A radis `Spectrum` is modelled by its grid (wavenumber or wavelength values)
  and its transmittance array. The radis operations the pipeline uses are
  modelled by their effect on the transmittance array: `SerialSlabs` is an
  elementwise product over spectra that share one grid, `add_array` an
  elementwise sum, `multiply` a scaling, and `normalize` a division by the
  mean or by the maximum.
*/
module Spectra {
  import opened Wrappers

  /** Response values sampled on a grid. */
  type Curve = seq<real>

  datatype Spectrum = Spectrum(grid: seq<real>, y: Curve)

  /** A spectrum has one response value per grid point. */
  predicate WellFormed(s: Spectrum) {
    |s.grid| == |s.y|
  }

  /** Every curve of `cs` has `n` samples. */
  predicate OnGrid(cs: seq<Curve>, n: nat) {
    forall j :: 0 <= j < |cs| ==> |cs[j]| == n
  }

  function Ones(n: nat): (r: Curve)
    ensures |r| == n
  {
    seq(n, _ => 1.0)
  }

  function Zeros(n: nat): (r: Curve)
    ensures |r| == n
  {
    seq(n, _ => 0.0)
  }

  /** `zeroY`: `(w * 0) + 1` evaluated pointwise on the grid values `w`. */
  function ZeroY(w: seq<real>): (r: Curve)
    ensures |r| == |w|
    ensures forall i :: 0 <= i < |r| ==> r[i] == 1.0
    ensures r == Ones(|w|)
  {
    seq(|w|, i requires 0 <= i < |w| => w[i] * 0.0 + 1.0)
  }

  // ---------------------------------------------------------------------------
  // Elementwise arithmetic
  // ---------------------------------------------------------------------------

  function Mul(a: Curve, b: Curve): (r: Curve)
    requires |a| == |b|
    ensures |r| == |a|
  {
    seq(|a|, i requires 0 <= i < |a| => a[i] * b[i])
  }

  function Add(a: Curve, b: Curve): (r: Curve)
    requires |a| == |b|
    ensures |r| == |a|
  {
    seq(|a|, i requires 0 <= i < |a| => a[i] + b[i])
  }

  function Scale(a: Curve, k: real): (r: Curve)
    ensures |r| == |a|
  {
    seq(|a|, i requires 0 <= i < |a| => a[i] * k)
  }

  lemma MulCommutes(a: Curve, b: Curve)
    requires |a| == |b|
    ensures Mul(a, b) == Mul(b, a)
  {
  }

  lemma MulAssociates(a: Curve, b: Curve, c: Curve)
    requires |a| == |b| == |c|
    ensures Mul(Mul(a, b), c) == Mul(a, Mul(b, c))
  {
    forall i | 0 <= i < |a| ensures Mul(Mul(a, b), c)[i] == Mul(a, Mul(b, c))[i] {
      assert (a[i] * b[i]) * c[i] == a[i] * (b[i] * c[i]);
    }
  }

  /** The all-ones background curve is the identity of the slab product. */
  lemma MulOnes(a: Curve)
    ensures Mul(a, Ones(|a|)) == a
    ensures Mul(Ones(|a|), a) == a
  {
  }

  lemma AddZeros(a: Curve)
    ensures Add(a, Zeros(|a|)) == a
  {
  }

  // ---------------------------------------------------------------------------
  // Sums, mean, maximum and normalisation
  // ---------------------------------------------------------------------------

  function Sum(a: Curve): real {
    if |a| == 0 then 0.0 else a[0] + Sum(a[1..])
  }

  lemma {:induction false} SumScale(a: Curve, k: real)
    ensures Sum(Scale(a, k)) == k * Sum(a)
  {
    if |a| > 0 {
      assert forall i :: 0 <= i < |a| - 1 ==> Scale(a, k)[1..][i] == Scale(a[1..], k)[i];
      assert Scale(a, k)[1..] == Scale(a[1..], k);
      SumScale(a[1..], k);
    }
  }

  lemma {:induction false} SumAdd(a: Curve, b: Curve)
    requires |a| == |b|
    ensures Sum(Add(a, b)) == Sum(a) + Sum(b)
  {
    if |a| > 0 {
      assert Add(a, b)[1..] == Add(a[1..], b[1..]);
      SumAdd(a[1..], b[1..]);
    }
  }

  /** A curve of mean 1 sums to its length. */
  lemma MeanOneSum(a: Curve)
    requires |a| > 0 && Mean(a) == 1.0
    ensures Sum(a) == |a| as real
  {
  }

  /** Dividing by the total makes the values sum to 1. */
  lemma SumNormalised(a: Curve)
    requires Sum(a) != 0.0
    ensures Sum(Scale(a, 1.0 / Sum(a))) == 1.0
  {
    SumScale(a, 1.0 / Sum(a));
  }

  function Mean(a: Curve): real
    requires |a| > 0
  {
    Sum(a) / (|a| as real)
  }

  /**
    `normalize(normalize_how="mean")`: every value divided by the mean, so the
    mean becomes 1. A zero mean (numpy would yield infinities) is excluded.
  */
  function NormalizeMean(a: Curve): (r: Curve)
    requires |a| > 0 && Sum(a) != 0.0
    ensures |r| == |a|
    ensures Mean(r) == 1.0
    ensures forall i :: 0 <= i < |a| ==> r[i] * Mean(a) == a[i]
  {
    var k := 1.0 / Mean(a);
    SumScale(a, k);
    MeanOfScaled(Sum(a), |a| as real);
    ScaledBack(a, Mean(a));
    Scale(a, k)
  }

  lemma MeanOfScaled(sum: real, len: real)
    requires sum != 0.0 && len > 0.0
    ensures (1.0 / (sum / len)) * sum / len == 1.0
  {
    var m := sum / len;
    assert m != 0.0;
    assert (1.0 / m) * sum / len == (1.0 / m) * (sum / len);
  }

  /** Dividing by a non-zero factor and multiplying back restores the curve. */
  lemma ScaledBack(a: Curve, m: real)
    requires m != 0.0
    ensures forall i :: 0 <= i < |a| ==> Scale(a, 1.0 / m)[i] * m == a[i]
  {
    forall i | 0 <= i < |a| ensures Scale(a, 1.0 / m)[i] * m == a[i] {
      assert a[i] * (1.0 / m) * m == a[i] * ((1.0 / m) * m);
    }
  }

  /** Scaling by `1 / m` and then by `m` gives the curve back. */
  lemma ScaleInverse(a: Curve, m: real)
    requires m != 0.0
    ensures Scale(Scale(a, 1.0 / m), m) == a
  {
    ScaledBack(a, m);
    assert forall i :: 0 <= i < |a| ==> Scale(Scale(a, 1.0 / m), m)[i] == a[i];
  }

  /** Multiplying a mean-normalised curve by the old mean restores the curve. */
  lemma NormalizeMeanInverse(a: Curve)
    requires |a| > 0 && Sum(a) != 0.0
    ensures Scale(NormalizeMean(a), Mean(a)) == a
  {
    assert Mean(a) != 0.0;
    ScaleInverse(a, Mean(a));
  }

  /** The largest value of a non-empty curve. */
  function Max(a: Curve): (m: real)
    requires |a| > 0
    ensures forall i :: 0 <= i < |a| ==> a[i] <= m
    ensures exists i :: 0 <= i < |a| && a[i] == m
  {
    if |a| == 1 then a[0]
    else
      var rest := Max(a[1..]);
      assert forall i :: 1 <= i < |a| ==> a[i] == a[1..][i - 1];
      if a[0] >= rest then a[0] else rest
  }

  /** A bound that is attained is the maximum. */
  lemma MaxUnique(a: Curve, m: real)
    requires |a| > 0
    requires forall i :: 0 <= i < |a| ==> a[i] <= m
    requires exists i :: 0 <= i < |a| && a[i] == m
    ensures Max(a) == m
  {
    var i :| 0 <= i < |a| && a[i] == m;
    var j :| 0 <= j < |a| && a[j] == Max(a);
    assert a[i] <= Max(a);
  }

  /**
    `normalize(normalize_how="max")`: every value divided by the maximum. When
    the maximum is positive, the new maximum is exactly 1.
  */
  function NormalizeMax(a: Curve): (r: Curve)
    requires |a| > 0 && Max(a) != 0.0
    ensures |r| == |a|
    ensures forall i :: 0 <= i < |a| ==> r[i] == a[i] / Max(a)
    ensures Max(a) > 0.0 ==> Max(r) == 1.0
  {
    var m := Max(a);
    var r := seq(|a|, i requires 0 <= i < |a| => a[i] / m);
    DividedPeak(a, m, r);
    r
  }

  lemma DividedPeak(a: Curve, m: real, r: Curve)
    requires |a| > 0 && m == Max(a)
    requires |r| == |a| && m != 0.0
    requires forall i :: 0 <= i < |a| ==> r[i] == a[i] / m
    ensures m > 0.0 ==> Max(r) == 1.0
  {
    if m > 0.0 {
      var j :| 0 <= j < |a| && a[j] == m;
      DividedBounds(a, m, r, j);
      MaxUnique(r, 1.0);
    }
  }

  lemma DividedBounds(a: Curve, m: real, r: Curve, j: nat)
    requires |r| == |a| && m > 0.0 && j < |a| && a[j] == m
    requires forall i :: 0 <= i < |a| ==> a[i] <= m
    requires forall i :: 0 <= i < |a| ==> r[i] == a[i] / m
    ensures forall i :: 0 <= i < |r| ==> r[i] <= 1.0
    ensures r[j] == 1.0
  {
    forall i | 0 <= i < |a| ensures r[i] <= 1.0 {
      DivideBound(a[i], m);
    }
  }

  lemma DivideBound(x: real, m: real)
    requires m > 0.0 && x <= m
    ensures x / m <= 1.0
  {
  }

  // ---------------------------------------------------------------------------
  // The slab product (radis SerialSlabs on transmittance)
  // ---------------------------------------------------------------------------

  /** Elementwise product of a chain of curves, folded left as SerialSlabs does. */
  function Product(cs: seq<Curve>, n: nat): (r: Curve)
    requires OnGrid(cs, n)
    ensures |r| == n
  {
    if |cs| == 0 then Ones(n) else Mul(Product(cs[..|cs| - 1], n), cs[|cs| - 1])
  }

  /** Multiplying two chains one after the other is multiplying their products. */
  lemma {:induction false} ProductAppend(a: seq<Curve>, b: seq<Curve>, n: nat)
    requires OnGrid(a, n) && OnGrid(b, n)
    ensures OnGrid(a + b, n)
    ensures Product(a + b, n) == Mul(Product(a, n), Product(b, n))
  {
    if |b| == 0 {
      assert a + b == a;
      MulOnes(Product(a, n));
    } else {
      var b' := b[..|b| - 1];
      assert (a + b)[..|a + b| - 1] == a + b';
      ProductAppend(a, b', n);
      MulAssociates(Product(a, n), Product(b', n), b[|b| - 1]);
    }
  }

  /** One more slab multiplies every point by that slab's value. */
  lemma ProductStep(cs: seq<Curve>, x: Curve, n: nat, i: nat)
    requires OnGrid(cs, n) && |x| == n && i < n
    ensures OnGrid(cs + [x], n)
    ensures Product(cs + [x], n)[i] == Product(cs, n)[i] * x[i]
  {
    assert (cs + [x])[..|cs|] == cs;
  }

  lemma ProductSingle(c: Curve)
    ensures OnGrid([c], |c|)
    ensures Product([c], |c|) == c
  {
    assert [c][..0] == [];
    MulOnes(c);
  }

  /** Removing element k of a chain and multiplying it in last changes nothing. */
  lemma {:induction false} ProductExtract(cs: seq<Curve>, k: nat, n: nat)
    requires OnGrid(cs, n) && k < |cs|
    ensures OnGrid(cs[..k] + cs[k + 1..], n)
    ensures Product(cs, n) == Mul(Product(cs[..k] + cs[k + 1..], n), cs[k])
  {
    var rest := cs[..k] + cs[k + 1..];
    var last := |cs| - 1;
    if k == last {
      assert rest == cs[..last];
    } else {
      var init := cs[..last];
      assert init[..k] + init[k + 1..] == rest[..|rest| - 1];
      assert rest[|rest| - 1] == cs[last];
      ProductExtract(init, k, n);
      var p := Product(init[..k] + init[k + 1..], n);
      MulAssociates(p, cs[k], cs[last]);
      MulCommutes(cs[k], cs[last]);
      MulAssociates(p, cs[last], cs[k]);
    }
  }

  /** Taking element k out of a sequence takes one copy of it out of its multiset. */
  lemma MultisetRemove(b: seq<Curve>, k: nat)
    requires k < |b|
    ensures multiset(b[..k] + b[k + 1..]) == multiset(b) - multiset{b[k]}
  {
    assert b == b[..k] + [b[k]] + b[k + 1..];
  }

  /** The last slab of `a` sits somewhere in `b`; without it the two chains still hold the same slabs. */
  lemma MatchLast(a: seq<Curve>, b: seq<Curve>) returns (k: nat)
    requires |a| > 0 && multiset(a) == multiset(b)
    ensures k < |b| && b[k] == a[|a| - 1]
    ensures multiset(a[..|a| - 1]) == multiset(b[..k] + b[k + 1..])
  {
    var x := a[|a| - 1];
    assert a == a[..|a| - 1] + [x];
    assert x in multiset(b);
    k :| 0 <= k < |b| && b[k] == x;
    MultisetRemove(b, k);
  }

  /** The order of the slabs in a chain does not change the product. */
  lemma {:induction false} ProductPermutation(a: seq<Curve>, b: seq<Curve>, n: nat)
    requires OnGrid(a, n) && OnGrid(b, n)
    requires multiset(a) == multiset(b)
    ensures Product(a, n) == Product(b, n)
  {
    if |a| == 0 {
      assert |b| == |multiset(b)| == 0;
    } else {
      var k := MatchLast(a, b);
      ProductExtract(b, k, n);
      ProductPermutation(a[..|a| - 1], b[..k] + b[k + 1..], n);
    }
  }

  /** The slabs' transmittance arrays, in chain order. */
  function Ys(slabs: seq<Spectrum>): (cs: seq<Curve>)
    ensures |cs| == |slabs|
  {
    seq(|slabs|, j requires 0 <= j < |slabs| => slabs[j].y)
  }

  /** Every slab uses the first slab's grid and has one value per grid point. */
  predicate SharedGrid(slabs: seq<Spectrum>)
    requires |slabs| > 0
  {
    forall j :: 0 <= j < |slabs| ==> slabs[j].grid == slabs[0].grid && |slabs[j].y| == |slabs[0].grid|
  }

  datatype SlabError = EmptyChain | GridMismatch

  /**
    `SerialSlabs(*slabs)`: the transmittances multiply. An empty chain or a
    slab on a different grid is refused.
  */
  function SerialSlabs(slabs: seq<Spectrum>): (r: Result<Spectrum, SlabError>)
    ensures |slabs| == 0 ==> r == Failure(EmptyChain)
    ensures |slabs| > 0 ==> (r.Success? <==> SharedGrid(slabs))
    ensures r.Success? ==> r.value.grid == slabs[0].grid && WellFormed(r.value)
  {
    if |slabs| == 0 then Failure(EmptyChain)
    else if !SharedGrid(slabs) then Failure(GridMismatch)
    else Success(Spectrum(slabs[0].grid, Product(Ys(slabs), |slabs[0].grid|)))
  }

  /** Composing a spectrum with a background of ones on its grid gives it back. */
  lemma SerialSlabsBackground(s: Spectrum)
    requires WellFormed(s)
    ensures SerialSlabs([s, Spectrum(s.grid, ZeroY(s.grid))]) == Success(s)
  {
    var slabs := [s, Spectrum(s.grid, ZeroY(s.grid))];
    assert Ys(slabs) == [s.y] + [Ones(|s.y|)];
    ProductAppend([s.y], [Ones(|s.y|)], |s.y|);
    ProductSingle(s.y);
    ProductSingle(Ones(|s.y|));
    MulOnes(s.y);
  }

  // ---------------------------------------------------------------------------
  // Sums over the rows of a noise matrix
  // ---------------------------------------------------------------------------

  /** Sum over the rows of column i (Python's `sum(matrix)[i]`). */
  function SumAt(rows: seq<Curve>, i: nat): real
    requires forall j :: 0 <= j < |rows| ==> i < |rows[j]|
  {
    if |rows| == 0 then 0.0 else SumAt(rows[..|rows| - 1], i) + rows[|rows| - 1][i]
  }

  lemma {:induction false} SumAtAppend(a: seq<Curve>, b: seq<Curve>, i: nat)
    requires forall j :: 0 <= j < |a| ==> i < |a[j]|
    requires forall j :: 0 <= j < |b| ==> i < |b[j]|
    ensures SumAt(a + b, i) == SumAt(a, i) + SumAt(b, i)
  {
    if |b| > 0 {
      assert (a + b)[..|a + b| - 1] == a + b[..|b| - 1];
      SumAtAppend(a, b[..|b| - 1], i);
    } else {
      assert a + b == a;
    }
  }

  /** Column sums of a matrix whose rows all have n samples. */
  function ColumnSum(rows: seq<Curve>, n: nat): (r: Curve)
    requires OnGrid(rows, n)
    ensures |r| == n
  {
    seq(n, i requires 0 <= i < n => SumAt(rows, i))
  }

  /** The column sums of a split matrix add up to those of the whole matrix. */
  lemma ColumnSumAppend(a: seq<Curve>, b: seq<Curve>, n: nat)
    requires OnGrid(a, n) && OnGrid(b, n)
    ensures OnGrid(a + b, n)
    ensures ColumnSum(a + b, n) == Add(ColumnSum(a, n), ColumnSum(b, n))
  {
    forall i | 0 <= i < n
      ensures ColumnSum(a + b, n)[i] == Add(ColumnSum(a, n), ColumnSum(b, n))[i]
    {
      SumAtAppend(a, b, i);
    }
  }
}
