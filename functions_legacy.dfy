/**
  functions.py: the older single-pass pipeline. The chain is composed from the
  component curves as sampled (nothing is normalised before composing), the
  product is divided by its mean, and the average of `numScan` noise rows is
  added on top.

  `__generate_spectrum` and `__process_background` of functions.py behave as
  those of processing.py and are `Processing.GenerateSpectrum` and
  `Processing.ProcessBackground`.
*/
module LegacyFunctions {
  import opened Wrappers
  import opened Spectra
  import opened Optics
  import opened Processing

  /**
    What the noise step raises: drawing a matrix with a negative number of
    rows (ValueError), or dividing the empty sum by zero scans (ZeroDivisionError).
  */
  datatype NoiseError = NegativeScans | ZeroScans

  /** The slab product of the selection, as sampled. */
  function Composed(sel: Selection, c: Curves, raw: Spectrum): (p: Curve)
    requires WellFormed(raw) && CurvesOn(c, |raw.grid|)
    ensures |p| == |raw.grid|
  {
    Product(ChainCurves(SlabOrder(sel), c, raw.y), |raw.grid|)
  }

  /** The rows the noise step draws: `numScan` of them, none when it raises. */
  predicate NoiseRows(numScan: int, rows: seq<Curve>, n: nat) {
    |rows| == (if numScan > 0 then numScan else 0) && OnGrid(rows, n)
  }

  /**
    The result: the composed product divided by its mean, plus the column sums
    of the noise rows divided by `numScan`; no positive scan count, no result.
  */
  function LegacySpectrum(sel: Selection, numScan: int, raw: Spectrum, c: Curves, rows: seq<Curve>)
    : (r: Result<Spectrum, NoiseError>)
    requires WellFormed(raw) && |raw.grid| > 0 && CurvesOn(c, |raw.grid|)
    requires Sum(Composed(sel, c, raw)) != 0.0
    requires NoiseRows(numScan, rows, |raw.grid|)
    ensures r.Failure? <==> numScan <= 0
    ensures numScan < 0 ==> r == Failure(NegativeScans)
    ensures numScan == 0 ==> r == Failure(ZeroScans)
    ensures r.Success? ==> r.value.grid == raw.grid && |r.value.y| == |raw.grid|
  {
    if numScan < 0 then Failure(NegativeScans)
    else if numScan == 0 then Failure(ZeroScans)
    else
      var n := |raw.grid|;
      Success(Spectrum(raw.grid, Add(NormalizeMean(Composed(sel, c, raw)), Scale(ColumnSum(rows, n), 1.0 / (numScan as real)))))
  }

  /** `__process_spectrum` of functions.py. */
  method ProcessSpectrumLegacy(sel: Selection, numScan: int, raw: Spectrum, lib: Library, rows: seq<Curve>)
    returns (r: Result<Spectrum, NoiseError>)
    requires WellFormed(raw) && |raw.grid| > 0
    requires Sum(Composed(sel, Evaluate(lib, raw.grid), raw)) != 0.0
    requires NoiseRows(numScan, rows, |raw.grid|)
    ensures r == LegacySpectrum(sel, numScan, raw, Evaluate(lib, raw.grid), rows)
  {
    var n := |raw.grid|;
    var c := Evaluate(lib, raw.grid);
    var spectrum := ComposeSlabs(sel, raw, c);
    spectrum := Spectrum(spectrum.grid, NormalizeMean(spectrum.y));

    if numScan < 0 {
      return Failure(NegativeScans);
    }
    var noise := ColumnSum(rows, n);
    if numScan == 0 {
      return Failure(ZeroScans);
    }
    r := Success(Spectrum(spectrum.grid, Add(spectrum.y, Scale(noise, 1.0 / (numScan as real)))));
  }

  /** The slab list of the selection, built and multiplied once. */
  method ComposeSlabs(sel: Selection, raw: Spectrum, c: Curves) returns (spectrum: Spectrum)
    requires WellFormed(raw) && |raw.grid| > 0 && CurvesOn(c, |raw.grid|)
    ensures spectrum == Spectrum(raw.grid, Composed(sel, c, raw))
  {
    var w := raw.grid;
    var slabs := FrontSlabs(sel, raw, c);
    ghost var more := DetectorSlabs(sel.detector);
    ghost var before := slabs;
    if sel.detector == "MCT" {
      slabs := slabs + [Spectrum(w, c.znSe), Spectrum(w, c.mct)];
      DetectorStage(w, c, raw.y, more, c.znSe, c.mct, ZnSe, MCT);
    } else if sel.detector == "InSb" {
      slabs := slabs + [Spectrum(w, c.sapphire), Spectrum(w, c.inSb)];
      DetectorStage(w, c, raw.y, more, c.sapphire, c.inSb, Sapphire, InSb);
    } else {
      assert more == [];
    }
    ExtendChain(w, FrontOrder(sel), more, c, raw.y, before);
    ghost var chain := SlabsOn(w, ChainCurves(FrontOrder(sel) + more, c, raw.y));
    assert slabs == chain;
    ComposeChain(w, c, raw, sel);
    var composed := SerialSlabs(slabs);
    assert composed == SerialSlabs(chain);
    spectrum := composed.value;
  }

  /**
    The normalised product sums to the number of grid points, so the result
    sums to that plus the noise total divided by `numScan`.
  */
  lemma LegacyTotal(sel: Selection, numScan: int, raw: Spectrum, c: Curves, rows: seq<Curve>)
    requires WellFormed(raw) && |raw.grid| > 0 && CurvesOn(c, |raw.grid|)
    requires Sum(Composed(sel, c, raw)) != 0.0
    requires NoiseRows(numScan, rows, |raw.grid|)
    requires numScan > 0
    ensures Sum(LegacySpectrum(sel, numScan, raw, c, rows).value.y)
         == |raw.grid| as real + (1.0 / (numScan as real)) * Sum(ColumnSum(rows, |raw.grid|))
  {
    var n := |raw.grid|;
    var normalised := NormalizeMean(Composed(sel, c, raw));
    var noise := ColumnSum(rows, n);
    MeanOneSum(normalised);
    SumAdd(normalised, Scale(noise, 1.0 / (numScan as real)));
    SumScale(noise, 1.0 / (numScan as real));
  }
}
