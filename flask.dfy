/**
  flask/functions.py: the server variant whose scan passes renormalise.
  Each of the `numScan` passes multiplies in the optics; the selected
  detector's curve first gains that pass's noise row and keeps it, so the
  noise accumulates from pass to pass. Every pass ends by dividing the
  transmittance by the sum of the values of its x -> y dict.
*/
module FlaskFunctions {
  import opened Wrappers
  import opened Spectra
  import opened Optics
  import opened GridStep
  import opened Dicts
  import opened Processing
  import opened ScanLoop
  import opened ApiFunctions

  /** `1 / sum(numbers.values())` with a zero sum raises ZeroDivisionError. */
  datatype FlaskError = ZeroTotal

  /**
    The component curves of pass `k` (counting from 1): the selected detector
    carries the first `k` noise rows, every other curve is as sampled.
  */
  function NoisyCurves(c: Curves, sel: Selection, noise: seq<Curve>, k: nat): (d: Curves)
    requires CurvesOn(c, |c.planck|) && k <= |noise| && OnGrid(noise, |c.planck|)
    ensures CurvesOn(d, |c.planck|) && d.planck == c.planck
    ensures sel.detector == "MCT" ==> d == c.(mct := d.mct)
    ensures sel.detector == "InSb" ==> d == c.(inSb := d.inSb)
    ensures !KnownDetector(sel.detector) ==> d == c
  {
    var extra := ColumnSum(noise[..k], |c.planck|);
    if sel.detector == "MCT" then c.(mct := Add(c.mct, extra))
    else if sel.detector == "InSb" then c.(inSb := Add(c.inSb, extra))
    else c
  }

  /**
    The transmittance after `k` passes over grid `w`, starting from `y0`: each
    pass multiplies in the optics of its curves and divides by the dict's total.
  */
  ghost function FlaskScans(y0: Curve, w: seq<real>, sel: Selection, c: Curves, noise: seq<Curve>, k: nat)
    : (r: Result<Curve, FlaskError>)
    requires |w| == |y0| && CurvesOn(c, |y0|) && k <= |noise| && OnGrid(noise, |y0|)
    ensures r.Success? ==> |r.value| == |y0|
  {
    if k == 0 then Success(y0)
    else
      match FlaskScans(y0, w, sel, c, noise, k - 1)
      case Failure(e) => Failure(e)
      case Success(y) =>
        Renormalised(w, Through(y, OpticsChain(sel, NoisyCurves(c, sel, noise, k))))
  }

  /** The end of a pass: `z` divided by the total of its dict, which must not be zero. */
  ghost function Renormalised(w: seq<real>, z: Curve): (r: Result<Curve, FlaskError>)
    requires |w| == |z|
    ensures r.Success? ==> |r.value| == |z|
  {
    var total := MapSum(Zip(w, z, |w|));
    if total == 0.0 then Failure(ZeroTotal) else Success(Scale(z, 1.0 / total))
  }

  /** `numbers = __loadData(...)`, `factor = 1 / sum(numbers.values())`, `multiply(spectrum, factor)`. */
  method Renormalise(w: seq<real>, z: Curve) returns (r: Result<Curve, FlaskError>)
    requires |w| == |z|
    ensures r == Renormalised(w, z)
  {
    var numbers := LoadData(w, z);
    var total := SumValues(numbers);
    if total == 0.0 {
      return Failure(ZeroTotal);
    }
    var factor := 1.0 / total;
    r := Success(Scale(z, factor));
  }

  /** The dict returned for base spectrum `s` after every pass. */
  ghost function FlaskResult(sel: Selection, s: Spectrum, c: Curves, noise: seq<Curve>)
    : Result<map<real, real>, FlaskError>
    requires WellFormed(s) && CurvesOn(c, |s.grid|) && OnGrid(noise, |s.grid|)
  {
    match FlaskScans(Mul(s.y, c.planck), s.grid, sel, c, noise, |noise|)
    case Failure(e) => Failure(e)
    case Success(y) => Success(Zip(s.grid, y, |s.grid|))
  }

  /** Once a pass raises, the loop never returns a dict. */
  lemma {:induction false} FailureSticks(y0: Curve, w: seq<real>, sel: Selection, c: Curves, noise: seq<Curve>,
                                         k: nat, m: nat)
    requires |w| == |y0| && CurvesOn(c, |y0|) && k <= m <= |noise| && OnGrid(noise, |y0|)
    requires FlaskScans(y0, w, sel, c, noise, k) == Failure(ZeroTotal)
    ensures FlaskScans(y0, w, sel, c, noise, m) == Failure(ZeroTotal)
    decreases m
  {
    if m > k {
      FailureSticks(y0, w, sel, c, noise, k, m - 1);
    }
  }

  lemma NoNoiseYet(d: Curve, rows: seq<Curve>)
    requires OnGrid(rows, |d|)
    ensures Add(d, ColumnSum(rows[..0], |d|)) == d
  {
    assert rows[..0] == [];
    forall i | 0 <= i < |d| ensures Add(d, ColumnSum(rows[..0], |d|))[i] == d[i] {
      assert ColumnSum(rows[..0], |d|)[i] == 0.0;
    }
  }

  /** Adding row `x` to a curve that carries rows `0..x` makes it carry rows `0..x+1`. */
  lemma AccumulateRow(d: Curve, rows: seq<Curve>, x: nat)
    requires OnGrid(rows, |d|) && x < |rows|
    ensures Add(Add(d, ColumnSum(rows[..x], |d|)), rows[x]) == Add(d, ColumnSum(rows[..x + 1], |d|))
  {
    var n := |d|;
    assert rows[..x + 1][..x] == rows[..x];
    forall i | 0 <= i < n
      ensures Add(Add(d, ColumnSum(rows[..x], n)), rows[x])[i] == Add(d, ColumnSum(rows[..x + 1], n))[i]
    {
      assert SumAt(rows[..x + 1], i) == SumAt(rows[..x], i) + rows[x][i];
    }
  }

  /** The front stages do not involve the detectors, so the noise leaves them alone. */
  lemma SameFront(c: Curves, sel: Selection, noise: seq<Curve>, k: nat)
    requires CurvesOn(c, |c.planck|) && k <= |noise| && OnGrid(noise, |c.planck|)
    ensures ChainCurves(BeamsplitterSlabs(sel.beamsplitter) + WindowSlabs(sel.window), c, c.planck)
         == ChainCurves(BeamsplitterSlabs(sel.beamsplitter) + WindowSlabs(sel.window),
                        NoisyCurves(c, sel, noise, k), c.planck)
  {
  }

  /**
    One pass of the loop body: the front optics, then the detector's window
    and the detector, whose curve first gains noise row `x`.
  */
  method FlaskPass(y: Curve, sel: Selection, c: Curves, noise: seq<Curve>, x: nat, mct: Curve, inSb: Curve)
    returns (z: Curve, mct': Curve, inSb': Curve)
    requires CurvesOn(c, |y|) && x < |noise| && OnGrid(noise, |y|)
    requires mct == NoisyCurves(c, sel, noise, x).mct && inSb == NoisyCurves(c, sel, noise, x).inSb
    ensures z == Through(y, OpticsChain(sel, NoisyCurves(c, sel, noise, x + 1)))
    ensures mct' == NoisyCurves(c, sel, noise, x + 1).mct && inSb' == NoisyCurves(c, sel, noise, x + 1).inSb
  {
    ghost var next := NoisyCurves(c, sel, noise, x + 1);
    mct', inSb' := mct, inSb;
    z := FrontOptics(y, sel, c);
    ghost var front := z;
    if sel.detector == "MCT" {
      z := Mul(z, c.znSe);
      AccumulateRow(c.mct, noise, x);
      mct' := Add(mct', noise[x]);
      z := Mul(z, mct');
      PairThrough(front, c.znSe, mct', ChainCurves(DetectorSlabs(sel.detector), next, c.planck));
    } else if sel.detector == "InSb" {
      z := Mul(z, c.sapphire);
      AccumulateRow(c.inSb, noise, x);
      inSb' := Add(inSb', noise[x]);
      z := Mul(z, inSb');
      PairThrough(front, c.sapphire, inSb', ChainCurves(DetectorSlabs(sel.detector), next, c.planck));
    }
    SameFront(c, sel, noise, x + 1);
    PassIsChain(y, sel, next);
  }

  /** How pass `x + 1` continues from pass `x`. */
  lemma FlaskStep(y0: Curve, w: seq<real>, sel: Selection, c: Curves, noise: seq<Curve>, x: nat, y: Curve, z: Curve)
    requires |w| == |y0| && CurvesOn(c, |y0|) && x < |noise| && OnGrid(noise, |y0|)
    requires FlaskScans(y0, w, sel, c, noise, x) == Success(y)
    requires z == Through(y, OpticsChain(sel, NoisyCurves(c, sel, noise, x + 1)))
    ensures FlaskScans(y0, w, sel, c, noise, x + 1) == Renormalised(w, z)
  {
  }

  /** Pass `x + 1` either continues the loop or, with a zero total, ends it with no dict. */
  lemma StepOutcome(y0: Curve, w: seq<real>, sel: Selection, c: Curves, noise: seq<Curve>, x: nat, y: Curve, z: Curve)
    requires |w| == |y0| && CurvesOn(c, |y0|) && x < |noise| && OnGrid(noise, |y0|)
    requires FlaskScans(y0, w, sel, c, noise, x) == Success(y)
    requires z == Through(y, OpticsChain(sel, NoisyCurves(c, sel, noise, x + 1)))
    ensures Renormalised(w, z).Success? ==> FlaskScans(y0, w, sel, c, noise, x + 1) == Renormalised(w, z)
    ensures Renormalised(w, z).Failure? ==> FlaskScans(y0, w, sel, c, noise, |noise|) == Failure(ZeroTotal)
  {
    FlaskStep(y0, w, sel, c, noise, x, y, z);
    var next := Renormalised(w, z);
    if next.Failure? {
      assert next == Failure(ZeroTotal);
      FailureSticks(y0, w, sel, c, noise, x + 1, |noise|);
    }
  }

  /**
    The whole loop body: pass `x + 1` and its renormalisation; `stop` when
    the total was zero, which ends the loop with no dict.
  */
  method FlaskIteration(ghost y0: Curve, w: seq<real>, sel: Selection, c: Curves, noise: seq<Curve>, x: nat,
                        y: Curve, mct: Curve, inSb: Curve)
    returns (stop: bool, y': Curve, mct': Curve, inSb': Curve)
    requires |w| == |y0| && CurvesOn(c, |y0|) && x < |noise| && OnGrid(noise, |y0|)
    requires FlaskScans(y0, w, sel, c, noise, x) == Success(y)
    requires mct == NoisyCurves(c, sel, noise, x).mct && inSb == NoisyCurves(c, sel, noise, x).inSb
    ensures stop ==> FlaskScans(y0, w, sel, c, noise, |noise|) == Failure(ZeroTotal)
    ensures !stop ==> FlaskScans(y0, w, sel, c, noise, x + 1) == Success(y')
    ensures mct' == NoisyCurves(c, sel, noise, x + 1).mct && inSb' == NoisyCurves(c, sel, noise, x + 1).inSb
  {
    var z;
    z, mct', inSb' := FlaskPass(y, sel, c, noise, x, mct, inSb);
    var next := Renormalise(w, z);
    StepOutcome(y0, w, sel, c, noise, x, y, z);
    stop := next.Failure?;
    y' := if stop then y else next.value;
  }

  /**
    The `numScan` loop of `__generate_spectra` and `__generate_background`
    on the curve itself: per pass the optics with the accumulated detector
    noise and the division by the dict's total.
  */
  method PassLoop(y0: Curve, w: seq<real>, sel: Selection, numScan: int, c: Curves, noise: seq<Curve>)
    returns (r: Result<Curve, FlaskError>)
    requires |w| == |y0| && CurvesOn(c, |y0|) && OnGrid(noise, |y0|)
    requires |noise| == ScanCount(numScan)
    ensures r == FlaskScans(y0, w, sel, c, noise, |noise|)
  {
    var y := y0;
    var mct := c.mct;
    var inSb := c.inSb;
    NoNoiseYet(c.mct, noise);
    NoNoiseYet(c.inSb, noise);
    var x := 0;
    while x < numScan
      invariant 0 <= x <= |noise|
      invariant FlaskScans(y0, w, sel, c, noise, x) == Success(y)
      invariant mct == NoisyCurves(c, sel, noise, x).mct && inSb == NoisyCurves(c, sel, noise, x).inSb
    {
      var stop;
      stop, y, mct, inSb := FlaskIteration(y0, w, sel, c, noise, x, y, mct, inSb);
      if stop {
        return Failure(ZeroTotal);
      }
      x := x + 1;
    }
    assert x == |noise|;
    return Success(y);
  }

  /**
    `__generate_spectra` and `__generate_background` after the curves are
    read: the blackbody once, the pass loop, then the dict of the result.
  */
  method FlaskLoop(sel: Selection, numScan: int, s: Spectrum, c: Curves, noise: seq<Curve>)
    returns (r: Result<map<real, real>, FlaskError>)
    requires WellFormed(s) && CurvesOn(c, |s.grid|)
    requires |noise| == ScanCount(numScan) && OnGrid(noise, |s.grid|)
    ensures r == FlaskResult(sel, s, c, noise)
    ensures numScan <= 0 ==> r == Success(Zip(s.grid, Mul(s.y, c.planck), |s.grid|))
  {
    var w := s.grid;
    var y := Mul(s.y, c.planck);
    var scanned := PassLoop(y, w, sel, numScan, c, noise);
    if scanned.Failure? {
      return Failure(scanned.error);
    }
    var data := LoadData(w, scanned.value);
    r := Success(data);
  }

  /**
    After every pass, on a grid without repeated values, the values of the
    transmittance dict sum to 1.
  */
  lemma PassesNormalise(y0: Curve, w: seq<real>, sel: Selection, c: Curves, noise: seq<Curve>, k: nat)
    requires |w| == |y0| && CurvesOn(c, |y0|) && k <= |noise| && OnGrid(noise, |y0|)
    requires forall i, j :: 0 <= i < j < |w| ==> w[i] != w[j]
    requires k > 0 && FlaskScans(y0, w, sel, c, noise, k).Success?
    ensures MapSum(Zip(w, FlaskScans(y0, w, sel, c, noise, k).value, |w|)) == 1.0
  {
    var y := FlaskScans(y0, w, sel, c, noise, k - 1).value;
    var z := Through(y, OpticsChain(sel, NoisyCurves(c, sel, noise, k)));
    assert FlaskScans(y0, w, sel, c, noise, k) == Renormalised(w, z);
    NormalisedTotal(w, z);
  }

  /**
    No noise before the first pass, and the detector of pass `k + 1` is the
    detector of pass `k` plus row `k`: each pass adds one row to the noise
    already there instead of drawing a fresh one.
  */
  lemma NoiseAccumulates(c: Curves, sel: Selection, noise: seq<Curve>, k: nat, i: nat)
    requires CurvesOn(c, |c.planck|) && k < |noise| && OnGrid(noise, |c.planck|) && i < |c.planck|
    ensures NoisyCurves(c, sel, noise, 0).mct[i] == c.mct[i] && NoisyCurves(c, sel, noise, 0).inSb[i] == c.inSb[i]
    ensures sel.detector == "MCT" ==>
      NoisyCurves(c, sel, noise, k + 1).mct[i] == NoisyCurves(c, sel, noise, k).mct[i] + noise[k][i]
    ensures sel.detector == "InSb" ==>
      NoisyCurves(c, sel, noise, k + 1).inSb[i] == NoisyCurves(c, sel, noise, k).inSb[i] + noise[k][i]
  {
    assert noise[..k + 1][..k] == noise[..k];
    assert noise[..0] == [];
  }

  /**
    `__generate_spectra`: `False` exactly when the calculator raises, at the
    step of the default-0 table; otherwise the loop's dict or its error.
  */
  method GenerateSpectra(resolution: real, zeroFill: real, calculate: Calculator,
                         sel: Selection, numScan: int, lib: Library, noise: seq<Curve>)
    returns (r: Result<Reply, FlaskError>)
    requires var out := calculate(DefaultStep(resolution, zeroFill));
      out.Success? ==> WellFormed(out.value) && |noise| == ScanCount(numScan) && OnGrid(noise, |out.value.grid|)
    ensures var out := calculate(DefaultStep(resolution, zeroFill));
      && (r == Success(NoSpectrum) <==> out.Failure?)
      && (out.Success? ==>
            var loop := FlaskResult(sel, out.value, Evaluate(lib, out.value.grid), noise);
            (r.Failure? <==> loop.Failure?) && (r.Success? ==> r.value == Data(loop.value)))
  {
    var wstep := DefaultStep(resolution, zeroFill);
    var out := calculate(wstep);
    if out.Failure? {
      return Success(NoSpectrum);
    }
    var s := out.value;
    var c := Evaluate(lib, s.grid);
    var loop := FlaskLoop(sel, numScan, s, c, noise);
    if loop.Failure? {
      return Failure(loop.error);
    }
    return Success(Data(loop.value));
  }

  /**
    `__generate_background`: the same loop on a spectrum of ones over the
    calculated grid.
  */
  method GenerateBackground(resolution: real, zeroFill: real, calculate: Calculator,
                            sel: Selection, numScan: int, lib: Library, noise: seq<Curve>)
    returns (r: Result<Reply, FlaskError>)
    requires var out := calculate(DefaultStep(resolution, zeroFill));
      out.Success? ==> |noise| == ScanCount(numScan) && OnGrid(noise, |out.value.grid|)
    ensures var out := calculate(DefaultStep(resolution, zeroFill));
      && (r == Success(NoSpectrum) <==> out.Failure?)
      && (out.Success? ==>
            var w := out.value.grid;
            var loop := FlaskResult(sel, Spectrum(w, ZeroY(w)), Evaluate(lib, w), noise);
            (r.Failure? <==> loop.Failure?) && (r.Success? ==> r.value == Data(loop.value)))
  {
    var wstep := DefaultStep(resolution, zeroFill);
    var out := calculate(wstep);
    if out.Failure? {
      return Success(NoSpectrum);
    }
    var w := out.value.grid;
    var base := Spectrum(w, ZeroY(w));
    var loop := FlaskLoop(sel, numScan, base, Evaluate(lib, w), noise);
    if loop.Failure? {
      return Failure(loop.error);
    }
    return Success(Data(loop.value));
  }
}
