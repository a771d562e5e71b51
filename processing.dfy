/**
  processing.py: the spectrometer chain applied to a calculated spectrum, the
  background, and the error mapping around the line-by-line calculator.

  The calculator (radis `calc_spectrum`) is a parameter: a function from the
  wavenumber step to a spectrum or to the error it raised.
*/
module Processing {
  import opened Wrappers
  import opened Spectra
  import opened Optics
  import opened GridStep
  import opened ProcessingUtils

  // ---------------------------------------------------------------------------
  // Preparing the component curves
  // ---------------------------------------------------------------------------

  /** The curves the chain divides by their mean have a non-zero sum. */
  predicate MeanNormalisable(c: Curves) {
    && |c.planck| > 0
    && Sum(c.planck) != 0.0 && Sum(c.arZnSe) != 0.0 && Sum(c.arCaF2) != 0.0
    && Sum(c.caF2) != 0.0 && Sum(c.znSe) != 0.0 && Sum(c.sapphire) != 0.0
  }

  /** The noisy response of the selected detector has a non-zero sum. */
  predicate DetectorNormalisable(c: Curves, sel: Selection, scans: int, rows: seq<Curve>)
    requires |rows| == NoiseRowCount(scans) && OnGrid(rows, |c.mct|) && |c.inSb| == |c.mct|
  {
    && (sel.detector == "MCT" ==> |c.mct| > 0 && Sum(Multiscanned(c.mct, scans, rows)) != 0.0)
    && (sel.detector == "InSb" ==> |c.inSb| > 0 && Sum(Multiscanned(c.inSb, scans, rows)) != 0.0)
  }

  /**
    The curves as they enter the chain: blackbody, beamsplitters, windows and
    sapphire divided by their mean; the selected detector given the scan noise
    and then divided by its mean; the other detector left raw.
  */
  function Prepared(c: Curves, sel: Selection, scans: int, rows: seq<Curve>): (p: Curves)
    requires CurvesOn(c, |c.planck|) && MeanNormalisable(c)
    requires |rows| == NoiseRowCount(scans) && OnGrid(rows, |c.planck|)
    requires DetectorNormalisable(c, sel, scans, rows)
    ensures CurvesOn(p, |c.planck|)
    ensures Mean(p.planck) == 1.0 && Mean(p.arZnSe) == 1.0 && Mean(p.arCaF2) == 1.0
    ensures Mean(p.caF2) == 1.0 && Mean(p.znSe) == 1.0 && Mean(p.sapphire) == 1.0
    ensures sel.detector == "MCT" ==> Mean(p.mct) == 1.0 && p.inSb == c.inSb
    ensures sel.detector == "InSb" ==> Mean(p.inSb) == 1.0 && p.mct == c.mct
    ensures !KnownDetector(sel.detector) ==> p.mct == c.mct && p.inSb == c.inSb
  {
    Curves(
      NormalizeMean(c.planck), NormalizeMean(c.arZnSe), NormalizeMean(c.arCaF2),
      NormalizeMean(c.caF2), NormalizeMean(c.znSe), NormalizeMean(c.sapphire),
      if sel.detector == "MCT" then NormalizeMean(Multiscanned(c.mct, scans, rows)) else c.mct,
      if sel.detector == "InSb" then NormalizeMean(Multiscanned(c.inSb, scans, rows)) else c.inSb)
  }

  /**
    What the preparation did to each curve: multiplying a prepared curve back
    by the mean it was divided by gives the curve as sampled, and for the
    selected detector the scan-noised response. The noise is thus applied
    once, only to the selected detector, and before the mean normalisation.
  */
  lemma PreparedRestores(c: Curves, sel: Selection, scans: int, rows: seq<Curve>)
    requires CurvesOn(c, |c.planck|) && MeanNormalisable(c)
    requires |rows| == NoiseRowCount(scans) && OnGrid(rows, |c.planck|)
    requires DetectorNormalisable(c, sel, scans, rows)
    ensures var p := Prepared(c, sel, scans, rows);
      && Scale(p.planck, Mean(c.planck)) == c.planck
      && Scale(p.arZnSe, Mean(c.arZnSe)) == c.arZnSe
      && Scale(p.arCaF2, Mean(c.arCaF2)) == c.arCaF2
      && Scale(p.caF2, Mean(c.caF2)) == c.caF2
      && Scale(p.znSe, Mean(c.znSe)) == c.znSe
      && Scale(p.sapphire, Mean(c.sapphire)) == c.sapphire
    ensures sel.detector == "MCT" ==>
      Scale(Prepared(c, sel, scans, rows).mct, Mean(Multiscanned(c.mct, scans, rows)))
        == Multiscanned(c.mct, scans, rows)
    ensures sel.detector == "InSb" ==>
      Scale(Prepared(c, sel, scans, rows).inSb, Mean(Multiscanned(c.inSb, scans, rows)))
        == Multiscanned(c.inSb, scans, rows)
  {
    NormalizeMeanInverse(c.planck);
    NormalizeMeanInverse(c.arZnSe);
    NormalizeMeanInverse(c.arCaF2);
    NormalizeMeanInverse(c.caF2);
    NormalizeMeanInverse(c.znSe);
    NormalizeMeanInverse(c.sapphire);
    if sel.detector == "MCT" {
      NormalizeMeanInverse(Multiscanned(c.mct, scans, rows));
    } else if sel.detector == "InSb" {
      NormalizeMeanInverse(Multiscanned(c.inSb, scans, rows));
    }
  }

  /** Slabs on grid `w` carrying the given curves. */
  function SlabsOn(w: seq<real>, cs: seq<Curve>): (slabs: seq<Spectrum>)
    ensures |slabs| == |cs|
  {
    seq(|cs|, j requires 0 <= j < |cs| => Spectrum(w, cs[j]))
  }

  lemma SerialSlabsOn(w: seq<real>, cs: seq<Curve>)
    requires |cs| > 0 && OnGrid(cs, |w|)
    ensures SerialSlabs(SlabsOn(w, cs)) == Success(Spectrum(w, Product(cs, |w|)))
  {
    assert Ys(SlabsOn(w, cs)) == cs;
  }

  /** Appending the slabs of `more` to the slabs of `order` gives the slabs of `order + more`. */
  lemma ExtendChain(w: seq<real>, order: seq<Component>, more: seq<Component>, p: Curves, raw: Curve,
                    slabs: seq<Spectrum>)
    requires CurvesOn(p, |raw|)
    requires slabs == SlabsOn(w, ChainCurves(order, p, raw))
    ensures slabs + SlabsOn(w, ChainCurves(more, p, raw)) == SlabsOn(w, ChainCurves(order + more, p, raw))
  {
    ChainCurvesAppend(order, more, p, raw);
  }

  /** The finished chain is the slab order of the selection and composes on the raw grid. */
  lemma ComposeChain(w: seq<real>, p: Curves, raw: Spectrum, sel: Selection)
    requires CurvesOn(p, |raw.y|) && WellFormed(raw) && w == raw.grid
    ensures SerialSlabs(SlabsOn(w, ChainCurves(FrontOrder(sel) + DetectorSlabs(sel.detector), p, raw.y)))
         == Success(Spectrum(w, Product(ChainCurves(SlabOrder(sel), p, raw.y), |w|)))
  {
    SlabOrderSplit(sel);
    SerialSlabsOn(w, ChainCurves(SlabOrder(sel), p, raw.y));
  }

  /** The slab order is the front of the chain followed by the detector slabs. */
  lemma SlabOrderSplit(sel: Selection)
    ensures FrontOrder(sel) + DetectorSlabs(sel.detector) == SlabOrder(sel)
  {
    var b, win, d := BeamsplitterSlabs(sel.beamsplitter), WindowSlabs(sel.window), DetectorSlabs(sel.detector);
    assert [Raw, Blackbody] + b + win + d == [Raw, Blackbody] + (b + win + d);
  }

  /** The two detector slabs: its protective window, then the detector. */
  lemma DetectorStage(w: seq<real>, p: Curves, raw: Curve, more: seq<Component>,
                      window: Curve, detector: Curve, win: Component, det: Component)
    requires CurvesOn(p, |raw|) && more == [win, det]
    requires window == CurveOf(p, raw, win) && detector == CurveOf(p, raw, det)
    ensures [Spectrum(w, window), Spectrum(w, detector)] == SlabsOn(w, ChainCurves(more, p, raw))
  {
  }

  /** The slabs before the detector stage: raw, blackbody, beamsplitter, cell window twice. */
  function FrontOrder(sel: Selection): seq<Component> {
    [Raw, Blackbody] + BeamsplitterSlabs(sel.beamsplitter) + WindowSlabs(sel.window)
  }

  /** The front of the chain uses no detector curve. */
  lemma FrontIgnoresDetectors(sel: Selection, p: Curves, q: Curves, raw: Curve)
    requires CurvesOn(p, |raw|) && CurvesOn(q, |raw|)
    requires p.planck == q.planck && p.arZnSe == q.arZnSe && p.arCaF2 == q.arCaF2
    requires p.caF2 == q.caF2 && p.znSe == q.znSe && p.sapphire == q.sapphire
    ensures ChainCurves(FrontOrder(sel), p, raw) == ChainCurves(FrontOrder(sel), q, raw)
  {
    var o := FrontOrder(sel);
    forall j | 0 <= j < |o| ensures o[j] != MCT && o[j] != InSb {
      if j >= 2 {
        assert o[j] in BeamsplitterSlabs(sel.beamsplitter) + WindowSlabs(sel.window);
      }
    }
  }

  /** The `append`/`extend` calls for the raw spectrum, the blackbody, the beamsplitter and the cell window. */
  method FrontSlabs(sel: Selection, raw: Spectrum, c: Curves) returns (slabs: seq<Spectrum>)
    requires WellFormed(raw) && CurvesOn(c, |raw.grid|)
    ensures slabs == SlabsOn(raw.grid, ChainCurves(FrontOrder(sel), c, raw.y))
  {
    var w := raw.grid;
    slabs := [raw];
    slabs := slabs + [Spectrum(w, c.planck)];
    ghost var order: seq<Component> := [Raw, Blackbody];
    assert slabs == SlabsOn(w, ChainCurves(order, c, raw.y));

    ghost var more: seq<Component> := BeamsplitterSlabs(sel.beamsplitter);
    ghost var before := slabs;
    if sel.beamsplitter == "AR_ZnSe" {
      slabs := slabs + [Spectrum(w, c.arZnSe)];
    } else if sel.beamsplitter == "AR_CaF2" {
      slabs := slabs + [Spectrum(w, c.arCaF2)];
    }
    assert slabs == before + SlabsOn(w, ChainCurves(more, c, raw.y));
    ExtendChain(w, order, more, c, raw.y, before);
    order := order + more;

    more := WindowSlabs(sel.window);
    before := slabs;
    if sel.window == "CaF2" {
      slabs := slabs + [Spectrum(w, c.caF2), Spectrum(w, c.caF2)];
    } else if sel.window == "ZnSe" {
      slabs := slabs + [Spectrum(w, c.znSe), Spectrum(w, c.znSe)];
    }
    assert slabs == before + SlabsOn(w, ChainCurves(more, c, raw.y));
    ExtendChain(w, order, more, c, raw.y, before);
  }

  /**
    `__process_spectrum`: the raw spectrum multiplied by the chain of prepared
    component curves, in the order of `SlabOrder`.
  */
  method ProcessSpectrum(sel: Selection, scans: int, raw: Spectrum, lib: Library, rows: seq<Curve>)
    returns (r: Spectrum)
    requires WellFormed(raw) && |raw.grid| > 0
    requires MeanNormalisable(Evaluate(lib, raw.grid))
    requires |rows| == NoiseRowCount(scans) && OnGrid(rows, |raw.grid|)
    requires DetectorNormalisable(Evaluate(lib, raw.grid), sel, scans, rows)
    ensures r.grid == raw.grid
    ensures r.y == Product(ChainCurves(SlabOrder(sel), Prepared(Evaluate(lib, raw.grid), sel, scans, rows), raw.y),
                           |raw.grid|)
  {
    var w := raw.grid;
    var c := Evaluate(lib, w);
    ghost var p := Prepared(c, sel, scans, rows);
    var planck := NormalizeMean(c.planck);
    var arZnSe := NormalizeMean(c.arZnSe);
    var arCaF2 := NormalizeMean(c.arCaF2);
    var caF2 := NormalizeMean(c.caF2);
    var znSe := NormalizeMean(c.znSe);
    var sapphire := NormalizeMean(c.sapphire);
    var mct := c.mct;
    var inSb := c.inSb;

    var built := Curves(planck, arZnSe, arCaF2, caF2, znSe, sapphire, mct, inSb);
    var slabs := FrontSlabs(sel, raw, built);
    FrontIgnoresDetectors(sel, built, p, raw.y);

    ghost var more := DetectorSlabs(sel.detector);
    ghost var before := slabs;
    if sel.detector == "MCT" {
      var noisy, _ := Multiscan(Spectrum(w, mct), scans, rows);
      mct := NormalizeMean(noisy.y);
      slabs := slabs + [Spectrum(w, znSe), Spectrum(w, mct)];
      DetectorStage(w, p, raw.y, more, znSe, mct, ZnSe, MCT);
    } else if sel.detector == "InSb" {
      var noisy, _ := Multiscan(Spectrum(w, inSb), scans, rows);
      inSb := NormalizeMean(noisy.y);
      slabs := slabs + [Spectrum(w, sapphire), Spectrum(w, inSb)];
      DetectorStage(w, p, raw.y, more, sapphire, inSb, Sapphire, InSb);
    } else {
      assert more == [];
    }
    ExtendChain(w, FrontOrder(sel), more, p, raw.y, before);
    ghost var chain := SlabsOn(w, ChainCurves(FrontOrder(sel) + more, p, raw.y));
    assert slabs == chain;
    ComposeChain(w, p, raw, sel);
    var composed := SerialSlabs(slabs);
    assert composed == SerialSlabs(chain);
    r := composed.value;
  }

  /**
    With no scans the detector enters the chain as its mean-normalised
    response: the noise adds nothing.
  */
  lemma NoScansNoNoise(c: Curves, sel: Selection)
    requires CurvesOn(c, |c.planck|) && MeanNormalisable(c)
    requires DetectorNormalisable(c, sel, 0, [])
    ensures sel.detector == "MCT" ==> Prepared(c, sel, 0, []).mct == NormalizeMean(c.mct)
    ensures sel.detector == "InSb" ==> Prepared(c, sel, 0, []).inSb == NormalizeMean(c.inSb)
  {
    MultiscanNoScans(c.mct);
    MultiscanNoScans(c.inSb);
  }

  // ---------------------------------------------------------------------------
  // Background
  // ---------------------------------------------------------------------------

  /** `__process_background`: a spectrum of ones on the raw spectrum's grid. */
  function ProcessBackground(raw: Spectrum): (bg: Spectrum)
    ensures bg.grid == raw.grid && |bg.y| == |raw.grid|
    ensures forall i :: 0 <= i < |bg.y| ==> bg.y[i] == 1.0
  {
    Spectrum(raw.grid, ZeroY(raw.grid))
  }

  /** The background is the identity of the slab product on its grid. */
  lemma BackgroundIsIdentity(raw: Spectrum, s: Spectrum)
    requires WellFormed(s) && s.grid == raw.grid
    ensures SerialSlabs([s, ProcessBackground(raw)]) == Success(s)
  {
    SerialSlabsBackground(s);
  }

  // ---------------------------------------------------------------------------
  // Calculator errors
  // ---------------------------------------------------------------------------

  /** What the calculator may raise: no line in range, or any other error with its text. */
  datatype CalcError = EmptyDatabase | CalcFailed(text: string)

  type Calculator = real -> Result<Spectrum, CalcError>

  /** The triple `(spectrum, error flag, message)`. */
  datatype Generated = Generated(spectrum: Option<Spectrum>, isError: bool, message: Option<string>)

  /** The step lookup left `wstep` unbound, which raises before the calculator runs. */
  datatype StepError = UnboundStep

  const NoLineMessage: string := "error: No line in the specified wavenumber range"
  const RetrievalFailure: string := "Failed to retrieve data for given parameters."
  const NoHitranMessage: string := "error: HITRAN data does not exist for requested molecule."

  /** The message reported for a calculator error. */
  function ErrorMessage(e: CalcError): (m: string)
    ensures e == EmptyDatabase ==> m == NoLineMessage
    ensures e == CalcFailed(RetrievalFailure) ==> m == NoHitranMessage
    ensures e.CalcFailed? && e.text != RetrievalFailure ==> m == e.text
  {
    match e
    case EmptyDatabase => NoLineMessage
    case CalcFailed(text) => if text == RetrievalFailure then NoHitranMessage else text
  }

  /**
    Outside the two fixed messages, the reported message identifies the
    calculator's error exactly.
  */
  lemma MessageIdentifiesError(e1: CalcError, e2: CalcError)
    requires ErrorMessage(e1) == ErrorMessage(e2)
    requires ErrorMessage(e1) != NoLineMessage && ErrorMessage(e1) != NoHitranMessage
    ensures e1 == e2
  {
  }

  /**
    `__generate_spectrum` (processing.py, and the identical mapping of
    functions.py): the step comes from the five-tier table, the calculator's
    spectrum is returned unchanged, and every error becomes a message.
  */
  function GenerateSpectrum(resolution: real, zeroFill: real, calculate: Calculator): (g: Result<Generated, StepError>)
    ensures g.Failure? <==> MatchStep(resolution, zeroFill).None?
    ensures g.Success? ==> (
      var out := calculate(MatchStep(resolution, zeroFill).value);
      && (g.value.isError <==> out.Failure?)
      && (g.value.spectrum.Some? <==> out.Success?)
      && (g.value.message.Some? <==> out.Failure?)
      && (out.Success? ==> g.value.spectrum.value == out.value)
      && (out.Failure? ==> g.value.message.value == ErrorMessage(out.error)))
  {
    match MatchStep(resolution, zeroFill)
    case None => Failure(UnboundStep)
    case Some(wstep) =>
      match calculate(wstep)
      case Success(spectrum) => Success(Generated(Some(spectrum), false, None))
      case Failure(e) => Success(Generated(None, true, Some(ErrorMessage(e))))
  }
}
