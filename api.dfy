/**
  api/functions.py: the server variant that repeats the optics once per scan.
  The raw spectrum is composed with the blackbody once; each of the `numScan`
  passes then multiplies in the beamsplitter, the cell window twice, the
  detector's window and the detector, and adds one noise row. Nothing is
  normalised. The result is returned as an x -> y dict.
*/
module ApiFunctions {
  import opened Wrappers
  import opened Spectra
  import opened Optics
  import opened GridStep
  import opened Dicts
  import opened Processing
  import opened ScanLoop

  /** `range(numScan)` runs this many times: none for a negative count. */
  function ScanCount(numScan: int): (k: nat)
    ensures numScan > 0 ==> k == numScan
    ensures numScan <= 0 ==> k == 0
  {
    if numScan > 0 then numScan else 0
  }

  /** The transmittance after `k` passes, starting from `y0`; pass `j` adds noise row `j`. */
  function ApiScans(y0: Curve, sel: Selection, c: Curves, noise: seq<Curve>, k: nat): (r: Curve)
    requires CurvesOn(c, |y0|) && k <= |noise| && OnGrid(noise, |y0|)
    ensures |r| == |y0|
  {
    if k == 0 then y0
    else Add(Through(ApiScans(y0, sel, c, noise, k - 1), OpticsChain(sel, c)), noise[k - 1])
  }

  /** The dict returned for base spectrum `s`: every noise row used, one per pass. */
  function ApiResult(sel: Selection, s: Spectrum, c: Curves, noise: seq<Curve>): map<real, real>
    requires WellFormed(s) && CurvesOn(c, |s.grid|) && OnGrid(noise, |s.grid|)
  {
    Zip(s.grid, ApiScans(Mul(s.y, c.planck), sel, c, noise, |noise|), |s.grid|)
  }

  /** `__process_spectra`: the blackbody once, then `numScan` passes of optics and noise. */
  method ProcessSpectra(sel: Selection, numScan: int, s: Spectrum, lib: Library, noise: seq<Curve>)
    returns (data: map<real, real>)
    requires WellFormed(s)
    requires |noise| == ScanCount(numScan) && OnGrid(noise, |s.grid|)
    ensures data == ApiResult(sel, s, Evaluate(lib, s.grid), noise)
    ensures numScan <= 0 ==> data == Zip(s.grid, Mul(s.y, Evaluate(lib, s.grid).planck), |s.grid|)
  {
    var w := s.grid;
    var c := Evaluate(lib, w);
    var y := Mul(s.y, c.planck);
    ghost var y0 := y;
    var x := 0;
    while x < numScan
      invariant 0 <= x <= |noise|
      invariant y == ApiScans(y0, sel, c, noise, x)
    {
      y := ApiPass(y, sel, c, noise[x]);
      ApiStep(y0, sel, c, noise, x);
      x := x + 1;
    }
    assert x == |noise|;
    data := LoadData(w, y);
  }

  /** Pass `x + 1` continues from pass `x`. */
  lemma ApiStep(y0: Curve, sel: Selection, c: Curves, noise: seq<Curve>, x: nat)
    requires CurvesOn(c, |y0|) && x < |noise| && OnGrid(noise, |y0|)
    ensures ApiScans(y0, sel, c, noise, x + 1)
         == Add(Through(ApiScans(y0, sel, c, noise, x), OpticsChain(sel, c)), noise[x])
  {
  }

  /** One pass of the loop body: the optics slab by slab, then one noise row. */
  method ApiPass(y: Curve, sel: Selection, c: Curves, row: Curve) returns (z: Curve)
    requires CurvesOn(c, |y|) && |row| == |y|
    ensures z == Add(Through(y, OpticsChain(sel, c)), row)
  {
    var front := FrontOptics(y, sel, c);
    var back := DetectorOptics(front, sel, c);
    PassIsChain(y, sel, c);
    z := Add(back, row);
  }

  /** `k` copies of the optics, one after another. */
  function Repeated(cs: seq<Curve>, k: nat): (r: seq<Curve>)
    ensures |r| == k * |cs|
  {
    if k == 0 then [] else Repeated(cs, k - 1) + cs
  }

  lemma RepeatedOnGrid(cs: seq<Curve>, k: nat, n: nat)
    requires OnGrid(cs, n)
    ensures OnGrid(Repeated(cs, k), n)
  {
    if k > 0 {
      RepeatedOnGrid(cs, k - 1, n);
    }
  }

  /**
    Without noise, `k` passes compose one chain: raw, blackbody, then the
    optics `k` times.
  */
  lemma {:induction false} NoiselessChain(raw: Curve, sel: Selection, c: Curves, noise: seq<Curve>, k: nat)
    requires CurvesOn(c, |raw|) && k <= |noise| && OnGrid(noise, |raw|)
    requires forall j :: 0 <= j < k ==> noise[j] == Zeros(|raw|)
    ensures OnGrid([raw, c.planck] + Repeated(OpticsChain(sel, c), k), |raw|)
    ensures ApiScans(Mul(raw, c.planck), sel, c, noise, k)
         == Product([raw, c.planck] + Repeated(OpticsChain(sel, c), k), |raw|)
  {
    var n := |raw|;
    var optics := OpticsChain(sel, c);
    RepeatedOnGrid(optics, k, n);
    if k == 0 {
      FirstProduct(raw, c.planck);
    } else {
      NoiselessChain(raw, sel, c, noise, k - 1);
      NoiselessPass(raw, c.planck, optics, ApiScans(Mul(raw, c.planck), sel, c, noise, k - 1), k);
    }
  }

  lemma FirstProduct(raw: Curve, planck: Curve)
    requires |planck| == |raw|
    ensures OnGrid([raw, planck], |raw|)
    ensures Product([raw, planck], |raw|) == Mul(raw, planck)
  {
    assert [raw, planck][..1] == [raw];
    ProductSingle(raw);
  }

  /** One more noiseless pass multiplies the optics onto the chain. */
  lemma NoiselessPass(raw: Curve, planck: Curve, optics: seq<Curve>, prev: Curve, k: nat)
    requires |planck| == |raw| && |prev| == |raw| && OnGrid(optics, |raw|) && k > 0
    requires OnGrid([raw, planck] + Repeated(optics, k - 1), |raw|)
    requires prev == Product([raw, planck] + Repeated(optics, k - 1), |raw|)
    ensures OnGrid([raw, planck] + Repeated(optics, k), |raw|)
    ensures Add(Through(prev, optics), Zeros(|raw|)) == Product([raw, planck] + Repeated(optics, k), |raw|)
  {
    var n := |raw|;
    var before := [raw, planck] + Repeated(optics, k - 1);
    ThroughIsProduct(prev, optics);
    AddZeros(Through(prev, optics));
    ProductAppend(before, optics, n);
    assert [raw, planck] + Repeated(optics, k) == before + optics;
  }

  /**
    The noiseless chain of `k` passes has `2 + k * (b + 2w + 2d)` slabs, where
    `b`, `w` and `d` record whether the beamsplitter, window and detector were
    recognised: one product for the blackbody and one per optics slab per pass.
  */
  lemma ChainLength(raw: Curve, sel: Selection, c: Curves, k: nat)
    requires CurvesOn(c, |raw|)
    ensures |[raw, c.planck] + Repeated(OpticsChain(sel, c), k)| == 2 + k * (
      Indicator(KnownBeamsplitter(sel.beamsplitter)) + 2 * Indicator(KnownWindow(sel.window))
      + 2 * Indicator(KnownDetector(sel.detector)))
  {
    OpticsSlabCount(sel);
  }

  /**
    `__generate_spectra`: `False` exactly when the calculator raises, at the
    step of the default-0 table; otherwise the processed dict.
  */
  method GenerateSpectra(resolution: real, zeroFill: real, calculate: Calculator,
                         sel: Selection, numScan: int, lib: Library, noise: seq<Curve>)
    returns (r: Reply)
    requires var out := calculate(DefaultStep(resolution, zeroFill));
      out.Success? ==> WellFormed(out.value) && |noise| == ScanCount(numScan) && OnGrid(noise, |out.value.grid|)
    ensures var out := calculate(DefaultStep(resolution, zeroFill));
      && (r == NoSpectrum <==> out.Failure?)
      && (out.Success? ==> r == Data(ApiResult(sel, out.value, Evaluate(lib, out.value.grid), noise)))
  {
    var wstep := DefaultStep(resolution, zeroFill);
    var out := calculate(wstep);
    if out.Failure? {
      return NoSpectrum;
    }
    var data := ProcessSpectra(sel, numScan, out.value, lib, noise);
    return Data(data);
  }

  /**
    `__generate_background`: the same, on a spectrum of ones over the
    calculated grid; the first product is then the blackbody itself.
  */
  method GenerateBackground(resolution: real, zeroFill: real, calculate: Calculator,
                            sel: Selection, numScan: int, lib: Library, noise: seq<Curve>)
    returns (r: Reply)
    requires var out := calculate(DefaultStep(resolution, zeroFill));
      out.Success? ==> |noise| == ScanCount(numScan) && OnGrid(noise, |out.value.grid|)
    ensures var out := calculate(DefaultStep(resolution, zeroFill));
      && (r == NoSpectrum <==> out.Failure?)
      && (out.Success? ==>
            var w := out.value.grid;
            r == Data(ApiResult(sel, Spectrum(w, ZeroY(w)), Evaluate(lib, w), noise)))
  {
    var wstep := DefaultStep(resolution, zeroFill);
    var out := calculate(wstep);
    if out.Failure? {
      return NoSpectrum;
    }
    var w := out.value.grid;
    var base := Spectrum(w, ZeroY(w));
    var data := ProcessSpectra(sel, numScan, base, lib, noise);
    return Data(data);
  }

  /** A background run without scans returns the blackbody curve on the grid. */
  lemma BackgroundNoScans(w: seq<real>, sel: Selection, lib: Library)
    ensures ApiResult(sel, Spectrum(w, ZeroY(w)), Evaluate(lib, w), []) == Zip(w, Evaluate(lib, w).planck, |w|)
  {
    BackgroundBase(w, Evaluate(lib, w).planck);
  }
}
