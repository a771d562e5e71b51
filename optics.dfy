/**
  The instrument's optical path: which component spectra are multiplied into
  the raw spectrum, and in which order.

  Every revision builds the same chain from the three selector strings: the
  beamsplitter (one slab), the cell window (two slabs, light crosses it twice)
  and the detector (its protective window, then the detector itself). An
  unrecognised selector contributes no slab. The curve formulas are opaque:
  a `Library` holds one response function of the grid coordinate per element,
  and `Evaluate` samples them on a grid as the vectorised numpy code does.
*/
module Optics {
  import opened Spectra

  datatype Component = Raw | Blackbody | ARZnSe | ARCaF2 | CaF2 | ZnSe | Sapphire | MCT | InSb

  /** The three selector values exactly as the request carries them. */
  datatype Selection = Selection(beamsplitter: string, window: string, detector: string)

  /** The response functions of the curve library (blackbody at the chosen source temperature). */
  datatype Library = Library(
    planck: real -> real, arZnSe: real -> real, arCaF2: real -> real, caF2: real -> real,
    znSe: real -> real, sapphire: real -> real, mct: real -> real, inSb: real -> real)

  /** Component curves sampled on one grid. */
  datatype Curves = Curves(
    planck: Curve, arZnSe: Curve, arCaF2: Curve, caF2: Curve,
    znSe: Curve, sapphire: Curve, mct: Curve, inSb: Curve)

  predicate CurvesOn(c: Curves, n: nat) {
    && |c.planck| == n && |c.arZnSe| == n && |c.arCaF2| == n && |c.caF2| == n
    && |c.znSe| == n && |c.sapphire| == n && |c.mct| == n && |c.inSb| == n
  }

  function Sample(f: real -> real, w: seq<real>): (r: Curve)
    ensures |r| == |w|
  {
    seq(|w|, i requires 0 <= i < |w| => f(w[i]))
  }

  /** Every component spectrum is built on the same grid `w`. */
  function Evaluate(lib: Library, w: seq<real>): (c: Curves)
    ensures CurvesOn(c, |w|)
  {
    Curves(Sample(lib.planck, w), Sample(lib.arZnSe, w), Sample(lib.arCaF2, w), Sample(lib.caF2, w),
           Sample(lib.znSe, w), Sample(lib.sapphire, w), Sample(lib.mct, w), Sample(lib.inSb, w))
  }

  // ---------------------------------------------------------------------------
  // Selector matching
  // ---------------------------------------------------------------------------

  predicate KnownBeamsplitter(s: string) { s == "AR_ZnSe" || s == "AR_CaF2" }
  predicate KnownWindow(s: string) { s == "CaF2" || s == "ZnSe" }
  predicate KnownDetector(s: string) { s == "MCT" || s == "InSb" }

  function BeamsplitterSlabs(s: string): seq<Component> {
    if s == "AR_ZnSe" then [ARZnSe] else if s == "AR_CaF2" then [ARCaF2] else []
  }

  function WindowSlabs(s: string): seq<Component> {
    if s == "CaF2" then [CaF2, CaF2] else if s == "ZnSe" then [ZnSe, ZnSe] else []
  }

  /** The window that protects each detector: ZnSe for MCT, sapphire for InSb. */
  function DetectorWindow(d: Component): Component {
    if d == MCT then ZnSe else Sapphire
  }

  function DetectorSlabs(s: string): seq<Component> {
    if s == "MCT" then [DetectorWindow(MCT), MCT]
    else if s == "InSb" then [DetectorWindow(InSb), InSb]
    else []
  }

  /** The slabs that follow the source: beamsplitter, cell windows, detector. */
  function OpticsSlabs(sel: Selection): seq<Component> {
    BeamsplitterSlabs(sel.beamsplitter) + WindowSlabs(sel.window) + DetectorSlabs(sel.detector)
  }

  /** The full chain: raw spectrum, blackbody source, then the optics. */
  function SlabOrder(sel: Selection): seq<Component> {
    [Raw, Blackbody] + OpticsSlabs(sel)
  }

  function Indicator(b: bool): nat { if b then 1 else 0 }

  // ---------------------------------------------------------------------------
  // Properties of the chain
  // ---------------------------------------------------------------------------

  /** Each recognised beamsplitter adds one slab, a window two, a detector two. */
  lemma OpticsSlabCount(sel: Selection)
    ensures |OpticsSlabs(sel)| ==
      Indicator(KnownBeamsplitter(sel.beamsplitter)) + 2 * Indicator(KnownWindow(sel.window))
      + 2 * Indicator(KnownDetector(sel.detector))
  {
  }

  /** Exactly seven slabs if and only if every selector is recognised. */
  lemma FullChain(sel: Selection)
    ensures |SlabOrder(sel)| == 7 <==>
      KnownBeamsplitter(sel.beamsplitter) && KnownWindow(sel.window) && KnownDetector(sel.detector)
  {
    OpticsSlabCount(sel);
  }

  /**
    The chain starts with the raw spectrum and the blackbody, which occur
    nowhere else; a beamsplitter can only be the third slab.
  */
  lemma ChainStart(sel: Selection)
    ensures |SlabOrder(sel)| >= 2 && SlabOrder(sel)[0] == Raw && SlabOrder(sel)[1] == Blackbody
    ensures forall j :: 2 <= j < |SlabOrder(sel)| ==> SlabOrder(sel)[j] != Raw && SlabOrder(sel)[j] != Blackbody
    ensures forall j :: 3 <= j < |SlabOrder(sel)| ==> SlabOrder(sel)[j] != ARZnSe && SlabOrder(sel)[j] != ARCaF2
  {
    var b, w, d := BeamsplitterSlabs(sel.beamsplitter), WindowSlabs(sel.window), DetectorSlabs(sel.detector);
    var o := SlabOrder(sel);
    assert o == [Raw, Blackbody] + b + w + d;
    forall j | 2 <= j < |o|
      ensures o[j] != Raw && o[j] != Blackbody
      ensures j >= 3 ==> o[j] != ARZnSe && o[j] != ARCaF2
    {
      assert o[j] == (b + w + d)[j - 2];
      if j - 2 >= |b| {
        assert o[j] == (w + d)[j - 2 - |b|];
      }
    }
  }

  /** A recognised detector ends the chain, right after its protective window. */
  lemma DetectorLast(sel: Selection)
    requires KnownDetector(sel.detector)
    ensures var o := SlabOrder(sel); var d := if sel.detector == "MCT" then MCT else InSb;
      |o| >= 4 && o[|o| - 1] == d && o[|o| - 2] == DetectorWindow(d)
  {
  }

  /** A recognised cell window is crossed twice, right before the detector slabs. */
  lemma WindowTwice(sel: Selection)
    requires KnownWindow(sel.window)
    ensures var o := SlabOrder(sel); var k := |o| - |DetectorSlabs(sel.detector)|;
      var win := if sel.window == "CaF2" then CaF2 else ZnSe;
      k >= 4 && o[k - 2] == win && o[k - 1] == win
  {
  }

  // ---------------------------------------------------------------------------
  // From components to curves
  // ---------------------------------------------------------------------------

  function CurveOf(c: Curves, raw: Curve, k: Component): Curve {
    match k
    case Raw => raw
    case Blackbody => c.planck
    case ARZnSe => c.arZnSe
    case ARCaF2 => c.arCaF2
    case CaF2 => c.caF2
    case ZnSe => c.znSe
    case Sapphire => c.sapphire
    case MCT => c.mct
    case InSb => c.inSb
  }

  /** The curves of a chain of components, in chain order. */
  function ChainCurves(order: seq<Component>, c: Curves, raw: Curve): (cs: seq<Curve>)
    requires CurvesOn(c, |raw|)
    ensures |cs| == |order| && OnGrid(cs, |raw|)
  {
    seq(|order|, j requires 0 <= j < |order| => CurveOf(c, raw, order[j]))
  }

  lemma ChainCurvesAppend(a: seq<Component>, b: seq<Component>, c: Curves, raw: Curve)
    requires CurvesOn(c, |raw|)
    ensures ChainCurves(a + b, c, raw) == ChainCurves(a, c, raw) + ChainCurves(b, c, raw)
  {
  }

  /** The chain of the configuration AR_ZnSe / CaF2 / MCT, curve by curve. */
  lemma ReferenceChain(c: Curves, raw: Curve)
    requires CurvesOn(c, |raw|)
    ensures ChainCurves(SlabOrder(Selection("AR_ZnSe", "CaF2", "MCT")), c, raw)
         == [raw, c.planck, c.arZnSe, c.caF2, c.caF2, c.znSe, c.mct]
  {
    var o := SlabOrder(Selection("AR_ZnSe", "CaF2", "MCT"));
    assert o == [Raw, Blackbody, ARZnSe, CaF2, CaF2, ZnSe, MCT];
  }

  /**
    The configuration AR_ZnSe / CaF2 / MCT multiplies, point by point: raw,
    blackbody, AR_ZnSe, CaF2 twice, ZnSe and MCT.
  */
  lemma ReferenceConfiguration(c: Curves, raw: Curve, i: nat)
    requires CurvesOn(c, |raw|) && i < |raw|
    ensures var p := Product(ChainCurves(SlabOrder(Selection("AR_ZnSe", "CaF2", "MCT")), c, raw), |raw|);
      p[i] == 1.0 * raw[i] * c.planck[i] * c.arZnSe[i] * c.caF2[i] * c.caF2[i] * c.znSe[i] * c.mct[i]
  {
    ReferenceChain(c, raw);
    ReferenceProduct(c, raw, i, |raw|);
  }

  lemma ReferenceProduct(c: Curves, raw: Curve, i: nat, n: nat)
    requires CurvesOn(c, n) && i < n && |raw| == n
    ensures Product([raw, c.planck, c.arZnSe, c.caF2, c.caF2, c.znSe, c.mct], n)[i]
         == 1.0 * raw[i] * c.planck[i] * c.arZnSe[i] * c.caF2[i] * c.caF2[i] * c.znSe[i] * c.mct[i]
  {
    var p0: seq<Curve> := [];
    var p1 := p0 + [raw];
    var p2 := p1 + [c.planck];
    var p3 := p2 + [c.arZnSe];
    var p4 := p3 + [c.caF2];
    var p5 := p4 + [c.caF2];
    var p6 := p5 + [c.znSe];
    var p7 := p6 + [c.mct];
    ProductStep(p0, raw, n, i);
    ProductStep(p1, c.planck, n, i);
    ProductStep(p2, c.arZnSe, n, i);
    ProductStep(p3, c.caF2, n, i);
    ProductStep(p4, c.caF2, n, i);
    ProductStep(p5, c.znSe, n, i);
    ProductStep(p6, c.mct, n, i);
    assert Product(p0, n)[i] == 1.0;
    var v1, v2, v3, v4, v5, v6, v7 := Product(p1, n)[i], Product(p2, n)[i], Product(p3, n)[i],
      Product(p4, n)[i], Product(p5, n)[i], Product(p6, n)[i], Product(p7, n)[i];
    assert v7 == v6 * c.mct[i];
    assert v6 == v5 * c.znSe[i];
    assert v5 == v4 * c.caF2[i];
    assert v4 == v3 * c.caF2[i];
    assert v3 == v2 * c.arZnSe[i];
    assert v2 == v1 * c.planck[i];
    assert v1 == 1.0 * raw[i];
    assert p7 == [raw, c.planck, c.arZnSe, c.caF2, c.caF2, c.znSe, c.mct];
  }
}
