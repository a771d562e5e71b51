/**
  `__loadData` of api/functions.py and flask/functions.py, and the sum of a
  dictionary's values that the flask server normalises by.

  A Python dict keeps one value per key: assigning an existing key overwrites
  it. A Dafny `map` behaves the same way under `m[k := v]`.
*/
module Dicts {
  import opened Spectra

  function Min(a: nat, b: nat): nat { if a <= b then a else b }

  /** The first `k` pairs of `zip(xs, ys)` written into a dict, later pairs overwriting. */
  function Zip(xs: seq<real>, ys: seq<real>, k: nat): map<real, real>
    requires k <= |xs| && k <= |ys|
  {
    if k == 0 then map[] else Zip(xs, ys, k - 1)[xs[k - 1] := ys[k - 1]]
  }

  /** No later pair within the first `k` has the same key as pair `i`. */
  predicate LastOccurrence(xs: seq<real>, i: nat, k: nat)
    requires i < k <= |xs|
  {
    forall j :: i < j < k ==> xs[j] != xs[i]
  }

  /** The zipped dict has exactly the keys of the first `k` pairs. */
  lemma {:induction false} ZipKeys(xs: seq<real>, ys: seq<real>, k: nat)
    requires k <= |xs| && k <= |ys|
    ensures Zip(xs, ys, k).Keys == set i | 0 <= i < k :: xs[i]
  {
    if k > 0 {
      ZipKeys(xs, ys, k - 1);
      assert (set i | 0 <= i < k :: xs[i]) == (set i | 0 <= i < k - 1 :: xs[i]) + {xs[k - 1]};
    }
  }

  /** Each pair adds at most one entry. */
  lemma {:induction false} ZipSize(xs: seq<real>, ys: seq<real>, k: nat)
    requires k <= |xs| && k <= |ys|
    ensures |Zip(xs, ys, k)| <= k
  {
    if k > 0 {
      ZipSize(xs, ys, k - 1);
    }
  }

  /** Each key holds the value of its last pair. */
  lemma {:induction false} ZipLastWins(xs: seq<real>, ys: seq<real>, k: nat)
    requires k <= |xs| && k <= |ys|
    ensures forall i :: 0 <= i < k && LastOccurrence(xs, i, k) ==> xs[i] in Zip(xs, ys, k) && Zip(xs, ys, k)[xs[i]] == ys[i]
  {
    if k > 0 {
      ZipLastWins(xs, ys, k - 1);
      forall i | 0 <= i < k && LastOccurrence(xs, i, k)
        ensures xs[i] in Zip(xs, ys, k) && Zip(xs, ys, k)[xs[i]] == ys[i]
      {
        if i < k - 1 {
          assert xs[k - 1] != xs[i];
          assert LastOccurrence(xs, i, k - 1);
        }
      }
    }
  }

  /**
    The zipped dict has exactly the keys of the first `k` pairs, at most `k`
    entries, and each key holds the value of its last pair.
  */
  lemma ZipFacts(xs: seq<real>, ys: seq<real>, k: nat)
    requires k <= |xs| && k <= |ys|
    ensures Zip(xs, ys, k).Keys == set i | 0 <= i < k :: xs[i]
    ensures |Zip(xs, ys, k)| <= k
    ensures forall i :: 0 <= i < k && LastOccurrence(xs, i, k) ==> Zip(xs, ys, k)[xs[i]] == ys[i]
  {
    ZipKeys(xs, ys, k);
    ZipSize(xs, ys, k);
    ZipLastWins(xs, ys, k);
  }

  /** `__loadData`: the dict built by the zip loop. */
  method LoadData(xs: seq<real>, ys: seq<real>) returns (data: map<real, real>)
    ensures data == Zip(xs, ys, Min(|xs|, |ys|))
    ensures data.Keys == set i | 0 <= i < Min(|xs|, |ys|) :: xs[i]
    ensures |data| <= Min(|xs|, |ys|)
    ensures forall i :: 0 <= i < Min(|xs|, |ys|) && LastOccurrence(xs, i, Min(|xs|, |ys|)) ==> data[xs[i]] == ys[i]
  {
    var n := Min(|xs|, |ys|);
    data := map[];
    for k := 0 to n
      invariant data == Zip(xs, ys, k)
    {
      data := data[xs[k] := ys[k]];
    }
    ZipFacts(xs, ys, n);
  }

  // ---------------------------------------------------------------------------
  // Summing a dict's values
  // ---------------------------------------------------------------------------

  ghost function Pick(m: map<real, real>): (k: real)
    requires |m| > 0
    ensures k in m
  {
    assert exists k :: k in m by {
      if forall k :: k !in m {
        assert false;
      }
    }
    var k :| k in m; k
  }

  /** `sum(d.values())`: every key's value counted once. */
  ghost function MapSum(m: map<real, real>): real
    decreases |m|
  {
    if |m| == 0 then 0.0
    else
      var k := Pick(m);
      m[k] + MapSum(m - {k})
  }

  /** The sum does not depend on which key is taken out first. */
  lemma {:induction false} MapSumRemove(m: map<real, real>, k: real)
    requires k in m
    ensures MapSum(m) == m[k] + MapSum(m - {k})
    decreases |m|
  {
    var p := Pick(m);
    if p != k {
      MapSumRemove(m - {p}, k);
      MapSumRemove(m - {k}, p);
      assert m - {p} - {k} == m - {k} - {p};
    }
  }

  /** The sum of the values, taken key by key as the dict iterates. */
  method SumValues(m: map<real, real>) returns (total: real)
    ensures total == MapSum(m)
  {
    total := 0.0;
    var rest := m;
    while rest != map[]
      invariant total + MapSum(rest) == MapSum(m)
      decreases |rest|
    {
      var k :| k in rest;
      MapSumRemove(rest, k);
      total := total + rest[k];
      rest := rest - {k};
    }
  }

  lemma {:induction false} SumSnoc(a: Curve, x: real)
    ensures Sum(a + [x]) == Sum(a) + x
  {
    if |a| > 0 {
      assert (a + [x])[1..] == a[1..] + [x];
      SumSnoc(a[1..], x);
    } else {
      assert [x][1..] == [];
    }
  }

  /** A key that none of the first `k` pairs carries is not in their dict. */
  lemma FreshKey(xs: seq<real>, ys: seq<real>, k: nat)
    requires k < |xs| && k <= |ys|
    requires forall i :: 0 <= i < k ==> xs[i] != xs[k]
    ensures xs[k] !in Zip(xs, ys, k)
  {
    ZipFacts(xs, ys, k);
  }

  /** With no repeated grid value, the dict's total is the plain sum of the values. */
  lemma {:induction false} DistinctZipSum(xs: seq<real>, ys: seq<real>, k: nat)
    requires k <= |xs| && k <= |ys|
    requires forall i, j :: 0 <= i < j < k ==> xs[i] != xs[j]
    ensures MapSum(Zip(xs, ys, k)) == Sum(ys[..k])
  {
    if k > 0 {
      DistinctZipSum(xs, ys, k - 1);
      FreshKey(xs, ys, k - 1);
      AddFreshKey(Zip(xs, ys, k - 1), xs[k - 1], ys[k - 1]);
      assert ys[..k] == ys[..k - 1] + [ys[k - 1]];
      SumSnoc(ys[..k - 1], ys[k - 1]);
    }
  }

  /** A new key adds its value to the total. */
  lemma AddFreshKey(m: map<real, real>, x: real, v: real)
    requires x !in m
    ensures MapSum(m[x := v]) == MapSum(m) + v
  {
    MapSumRemove(m[x := v], x);
    assert m[x := v] - {x} == m;
  }

  /** The whole of `ys` zipped onto a grid without repeats: the dict's total is `Sum(ys)`. */
  lemma DistinctZipTotal(xs: seq<real>, ys: seq<real>)
    requires |ys| <= |xs|
    requires forall i, j :: 0 <= i < j < |ys| ==> xs[i] != xs[j]
    ensures MapSum(Zip(xs, ys, |ys|)) == Sum(ys)
  {
    DistinctZipSum(xs, ys, |ys|);
    assert ys[..|ys|] == ys;
  }

  /**
    With no repeated grid value, dividing every value by the dict's total
    makes the values of the rebuilt dict sum to 1.
  */
  lemma NormalisedTotal(xs: seq<real>, ys: seq<real>)
    requires |ys| <= |xs|
    requires forall i, j :: 0 <= i < j < |ys| ==> xs[i] != xs[j]
    requires MapSum(Zip(xs, ys, |ys|)) != 0.0
    ensures MapSum(Zip(xs, Scale(ys, 1.0 / MapSum(Zip(xs, ys, |ys|))), |ys|)) == 1.0
  {
    DistinctZipTotal(xs, ys);
    SumNormalised(ys);
    DistinctZipTotal(xs, Scale(ys, 1.0 / Sum(ys)));
  }
}
