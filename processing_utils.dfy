/**
  The helpers of processing_utils.py that are not curve formulas: the chunked
  multi-scan noise and the normalisation of the component spectra.

  Noise is not drawn here: the Gaussian draws arrive as an explicit matrix of
  rows, consumed in the order the chunk loop asks for them.
*/
module ProcessingUtils {
  import opened Spectra
  import opened Optics

  /** At most this many noise rows are drawn at once. */
  const ScansPerGroup: int := 10

  /**
    How many rows the chunk loop draws for `numScans` scans. For a negative
    count no full group runs (`range` of a negative number is empty), yet the
    remainder `numScans - 10 * (numScans // 10)` is still drawn.
  */
  function NoiseRowCount(numScans: int): (k: nat)
    ensures numScans >= 0 ==> k == numScans
    ensures numScans < 0 ==> k < ScansPerGroup
  {
    if numScans >= 0 then numScans else numScans % ScansPerGroup
  }

  /** The sizes of the groups the loop draws, in order: full groups, then the remainder. */
  function GroupSizes(numScans: int): seq<int> {
    var groups := numScans / ScansPerGroup;
    var full := if groups > 0 then groups else 0;
    seq(full, _ => ScansPerGroup)
      + (if ScansPerGroup * groups < numScans then [numScans - ScansPerGroup * groups] else [])
  }

  function SumInts(xs: seq<int>): int {
    if |xs| == 0 then 0 else SumInts(xs[..|xs| - 1]) + xs[|xs| - 1]
  }

  lemma {:induction false} SumOfFullGroups(k: nat)
    ensures SumInts(seq(k, _ => ScansPerGroup)) == ScansPerGroup * k
  {
    if k > 0 {
      assert seq(k, _ => ScansPerGroup)[..k - 1] == seq(k - 1, _ => ScansPerGroup);
      SumOfFullGroups(k - 1);
    }
  }

  /**
    Every group but the last holds ten rows; the last is the remainder of the
    count modulo ten when that is not zero; together they draw exactly as many
    rows as there are scans.
  */
  lemma GroupPlan(numScans: int)
    ensures SumInts(GroupSizes(numScans)) == NoiseRowCount(numScans)
    ensures forall j :: 0 <= j < |GroupSizes(numScans)| ==> 1 <= GroupSizes(numScans)[j] <= ScansPerGroup
    ensures forall j :: 0 <= j < |GroupSizes(numScans)| - 1 ==> GroupSizes(numScans)[j] == ScansPerGroup
    ensures numScans == 0 ==> GroupSizes(numScans) == []
    ensures numScans % ScansPerGroup != 0 ==>
      |GroupSizes(numScans)| > 0 && GroupSizes(numScans)[|GroupSizes(numScans)| - 1] == numScans % ScansPerGroup
    ensures numScans % ScansPerGroup == 0 ==>
      forall j :: 0 <= j < |GroupSizes(numScans)| ==> GroupSizes(numScans)[j] == ScansPerGroup
  {
    var groups := numScans / ScansPerGroup;
    var full := if groups > 0 then groups else 0;
    var fulls := seq(full, _ => ScansPerGroup);
    SumOfFullGroups(full);
    if ScansPerGroup * groups < numScans {
      var rest := [numScans - ScansPerGroup * groups];
      assert (fulls + rest)[..|fulls + rest| - 1] == fulls;
    } else {
      assert fulls + [] == fulls;
    }
  }

  /**
    The noise model: each grid point gains the sum of its column of the
    drawn matrix divided by the scan count.
  */
  function Multiscanned(y: Curve, numScans: int, rows: seq<Curve>): (r: Curve)
    requires |rows| == NoiseRowCount(numScans) && OnGrid(rows, |y|)
    ensures |r| == |y|
    ensures numScans == 0 ==> r == y
    ensures numScans > 0 ==> forall i :: 0 <= i < |y| ==> r[i] == y[i] + SumAt(rows, i) / (numScans as real)
  {
    if |rows| == 0 then y else Add(y, Scale(ColumnSum(rows, |y|), 1.0 / (numScans as real)))
  }

  /**
    `multiscan`: the groups of ten, then the remainder, each divided by the
    scan count. `sizes` records the size of each group drawn, in order.
  */
  method Multiscan(s: Spectrum, numScans: int, rows: seq<Curve>) returns (r: Spectrum, ghost sizes: seq<int>)
    requires WellFormed(s)
    requires |rows| == NoiseRowCount(numScans) && OnGrid(rows, |s.y|)
    ensures r == Spectrum(s.grid, Multiscanned(s.y, numScans, rows))
    ensures sizes == GroupSizes(numScans)
  {
    var n := |s.grid|;
    var groups := numScans / ScansPerGroup;
    ghost var k := if numScans == 0 then 0.0 else 1.0 / (numScans as real);
    r := s;
    var drawn := 0;
    NothingDrawn(s.y, rows, k);
    var g := 0;
    sizes := [];
    while g < groups
      invariant 0 <= g && (groups >= 0 ==> g <= groups)
      invariant sizes == seq(g, _ => ScansPerGroup)
      invariant drawn == ScansPerGroup * g && drawn <= |rows|
      invariant r.grid == s.grid && |r.y| == n
      invariant RunningNoise(s.y, r.y, rows, drawn, k)
    {
      var y := DrawGroup(s.y, r.y, rows, drawn, drawn + ScansPerGroup, numScans, k);
      r := Spectrum(r.grid, y);
      drawn := drawn + ScansPerGroup;
      assert seq(g + 1, _ => ScansPerGroup) == sizes + [ScansPerGroup];
      sizes := sizes + [ScansPerGroup];
      g := g + 1;
    }
    RemainderFits(numScans, g);
    if ScansPerGroup * groups < numScans {
      var diff := numScans - ScansPerGroup * groups;
      var y := DrawGroup(s.y, r.y, rows, drawn, drawn + diff, numScans, k);
      r := Spectrum(r.grid, y);
      drawn := drawn + diff;
      sizes := sizes + [diff];
    }
    AllDrawn(s.y, r.y, rows, drawn, numScans, k);
  }

  /** After the full groups, the remainder group takes exactly the rows that are left. */
  lemma RemainderFits(numScans: int, g: int)
    requires g == if numScans / ScansPerGroup > 0 then numScans / ScansPerGroup else 0
    ensures var groups := numScans / ScansPerGroup;
      && (ScansPerGroup * groups < numScans ==>
            ScansPerGroup * g + (numScans - ScansPerGroup * groups) == NoiseRowCount(numScans))
      && (ScansPerGroup * groups >= numScans ==> ScansPerGroup * g == NoiseRowCount(numScans))
      && GroupSizes(numScans) == seq(g, _ => ScansPerGroup)
           + (if ScansPerGroup * groups < numScans then [numScans - ScansPerGroup * groups] else [])
  {
  }

  /** One group: the column sums of rows `lo` to `hi`, divided by the scan count, added to `acc`. */
  method DrawGroup(y: Curve, acc: Curve, rows: seq<Curve>, lo: nat, hi: nat, numScans: int, ghost k: real)
    returns (next: Curve)
    requires RunningNoise(y, acc, rows, lo, k) && lo <= hi <= |rows|
    requires numScans != 0 && k == 1.0 / (numScans as real)
    ensures |next| == |acc| && RunningNoise(y, next, rows, hi, k)
  {
    var block := rows[lo..hi];
    AddGroup(y, acc, rows, lo, hi, numScans, k);
    next := Add(acc, Scale(ColumnSum(block, |y|), 1.0 / (numScans as real)));
  }

  /** After the first `drawn` rows, `acc` is `y` plus their column sums times `k`. */
  ghost predicate RunningNoise(y: Curve, acc: Curve, rows: seq<Curve>, drawn: nat, k: real) {
    drawn <= |rows| && OnGrid(rows, |y|) && acc == Add(y, Scale(ColumnSum(rows[..drawn], |y|), k))
  }

  /** One more group of rows extends the running sum. */
  lemma AddGroup(y: Curve, acc: Curve, rows: seq<Curve>, lo: nat, hi: nat, numScans: int, k: real)
    requires RunningNoise(y, acc, rows, lo, k) && lo <= hi <= |rows|
    requires numScans != 0 && k == 1.0 / (numScans as real)
    ensures OnGrid(rows[lo..hi], |y|)
    ensures RunningNoise(y, Add(acc, Scale(ColumnSum(rows[lo..hi], |y|), 1.0 / (numScans as real))), rows, hi, k)
  {
    var n := |y|;
    var a, b := ColumnSum(rows[..lo], n), ColumnSum(rows[lo..hi], n);
    assert rows[..hi] == rows[..lo] + rows[lo..hi];
    ColumnSumAppend(rows[..lo], rows[lo..hi], n);
    forall i | 0 <= i < n
      ensures Add(acc, Scale(b, k))[i] == Add(y, Scale(Add(a, b), k))[i]
    {
      Distribute(y[i], a[i], b[i], k);
    }
  }

  lemma Distribute(y: real, a: real, b: real, k: real)
    ensures (y + a * k) + b * k == y + (a + b) * k
  {
  }

  lemma NothingDrawn(y: Curve, rows: seq<Curve>, k: real)
    requires OnGrid(rows, |y|)
    ensures RunningNoise(y, y, rows, 0, k)
  {
    assert rows[..0] == [];
    forall i | 0 <= i < |y| ensures Add(y, Scale(ColumnSum(rows[..0], |y|), k))[i] == y[i] {
      assert ColumnSum(rows[..0], |y|)[i] == 0.0;
    }
  }

  /** Once every row is drawn, the running sum is the noise model. */
  lemma AllDrawn(y: Curve, acc: Curve, rows: seq<Curve>, drawn: nat, numScans: int, k: real)
    requires |rows| == NoiseRowCount(numScans) && drawn == |rows|
    requires RunningNoise(y, acc, rows, drawn, k)
    requires k == if numScans == 0 then 0.0 else 1.0 / (numScans as real)
    ensures acc == Multiscanned(y, numScans, rows)
  {
    assert rows[..drawn] == rows;
    if |rows| == 0 {
      forall i | 0 <= i < |y| ensures acc[i] == y[i] {
        assert ColumnSum(rows, |y|)[i] == 0.0;
      }
    }
  }

  /** Without scans the spectrum is returned untouched and nothing is divided. */
  lemma MultiscanNoScans(y: Curve)
    ensures Multiscanned(y, 0, []) == y
  {
  }

  // ---------------------------------------------------------------------------
  // Component spectra
  // ---------------------------------------------------------------------------

  lemma DoubledPeak(a: Curve)
    requires |a| > 0 && Max(a) == 1.0
    ensures Max(Scale(a, 2.0)) == 2.0
  {
    var d := Scale(a, 2.0);
    var j :| 0 <= j < |a| && a[j] == 1.0;
    assert d[j] == 2.0;
    MaxUnique(d, 2.0);
  }

  /**
    `get_component_spectra`: the blackbody and the MCT response are scaled so
    their maximum is 1, the InSb response so its maximum is 2; the powered
    optics curves are passed on as sampled.
  */
  method ComponentSpectra(w: seq<real>, lib: Library) returns (c: Curves)
    requires |w| > 0
    requires Max(Sample(lib.planck, w)) != 0.0
    requires Max(Sample(lib.mct, w)) != 0.0 && Max(Sample(lib.inSb, w)) != 0.0
    ensures CurvesOn(c, |w|)
    ensures var raw := Evaluate(lib, w);
      && c.arZnSe == raw.arZnSe && c.arCaF2 == raw.arCaF2 && c.caF2 == raw.caF2
      && c.znSe == raw.znSe && c.sapphire == raw.sapphire
      && (forall i :: 0 <= i < |w| ==> c.planck[i] == raw.planck[i] / Max(raw.planck))
      && (forall i :: 0 <= i < |w| ==> c.mct[i] == raw.mct[i] / Max(raw.mct))
      && (forall i :: 0 <= i < |w| ==> c.inSb[i] == raw.inSb[i] / Max(raw.inSb) * 2.0)
    ensures Max(Sample(lib.planck, w)) > 0.0 ==> Max(c.planck) == 1.0
    ensures Max(Sample(lib.mct, w)) > 0.0 ==> Max(c.mct) == 1.0
    ensures Max(Sample(lib.inSb, w)) > 0.0 ==> Max(c.inSb) == 2.0
  {
    var raw := Evaluate(lib, w);
    var planck := NormalizeMax(raw.planck);
    var mct := NormalizeMax(raw.mct);
    var inSb := NormalizeMax(raw.inSb);
    var yValue := Scale(inSb, 2.0);
    if Max(raw.inSb) > 0.0 {
      DoubledPeak(inSb);
    }
    c := Curves(planck, raw.arZnSe, raw.arCaF2, raw.caF2, raw.znSe, raw.sapphire, mct, yValue);
  }
}
