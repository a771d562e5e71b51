/**
  What the two server variants (api/functions.py and flask/functions.py)
  share: the optics of one scan pass applied slab by slab, and the reply of
  their generators.

  Each `SerialSlabs(spectrum, spec_X)` of a pass composes two spectra on one
  grid, which is the pointwise product of their transmittances (`PairIsMul`);
  the passes below therefore multiply curves directly.
*/
module ScanLoop {
  import opened Wrappers
  import opened Spectra
  import opened Optics

  /** What a generator returns: `False` when the calculator raised, otherwise the x -> y dict. */
  datatype Reply = NoSpectrum | Data(data: map<real, real>)

  /** Composing two spectra on one grid multiplies their transmittances. */
  lemma PairIsMul(w: seq<real>, a: Curve, b: Curve)
    requires |a| == |w| && |b| == |w|
    ensures SerialSlabs([Spectrum(w, a), Spectrum(w, b)]) == Success(Spectrum(w, Mul(a, b)))
  {
    var slabs := [Spectrum(w, a), Spectrum(w, b)];
    assert Ys(slabs) == [a] + [b];
    ProductAppend([a], [b], |w|);
    ProductSingle(a);
    ProductSingle(b);
  }

  /** `y` multiplied by each curve of `cs` in turn. */
  function Through(y: Curve, cs: seq<Curve>): (r: Curve)
    requires OnGrid(cs, |y|)
    ensures |r| == |y|
  {
    if |cs| == 0 then y else Mul(Through(y, cs[..|cs| - 1]), cs[|cs| - 1])
  }

  /** Passing through `a` and then `b` is passing through `a + b`. */
  lemma {:induction false} ThroughAppend(y: Curve, a: seq<Curve>, b: seq<Curve>)
    requires OnGrid(a, |y|) && OnGrid(b, |y|)
    ensures OnGrid(a + b, |y|)
    ensures Through(y, a + b) == Through(Through(y, a), b)
  {
    if |b| > 0 {
      assert (a + b)[..|a + b| - 1] == a + b[..|b| - 1];
      ThroughAppend(y, a, b[..|b| - 1]);
    } else {
      assert a + b == a;
    }
  }

  /** Multiplying slab by slab is multiplying by the slabs' product. */
  lemma {:induction false} ThroughIsProduct(y: Curve, cs: seq<Curve>)
    requires OnGrid(cs, |y|)
    ensures Through(y, cs) == Mul(y, Product(cs, |y|))
  {
    if |cs| == 0 {
      MulOnes(y);
    } else {
      var init := cs[..|cs| - 1];
      ThroughIsProduct(y, init);
      MulAssociates(y, Product(init, |y|), cs[|cs| - 1]);
    }
  }

  /** The optics of one pass as curves; the optics hold no raw slab, so `c.planck` stands in for it unused. */
  function OpticsChain(sel: Selection, c: Curves): (cs: seq<Curve>)
    requires CurvesOn(c, |c.planck|)
    ensures OnGrid(cs, |c.planck|)
  {
    ChainCurves(OpticsSlabs(sel), c, c.planck)
  }

  /** The beamsplitter and cell-window stages of one pass. */
  method FrontOptics(y: Curve, sel: Selection, c: Curves) returns (z: Curve)
    requires CurvesOn(c, |y|)
    ensures z == Through(y, ChainCurves(BeamsplitterSlabs(sel.beamsplitter) + WindowSlabs(sel.window), c, c.planck))
  {
    var n := |y|;
    z := y;
    if sel.beamsplitter == "AR_ZnSe" {
      z := Mul(z, c.arZnSe);
    } else if sel.beamsplitter == "AR_CaF2" {
      z := Mul(z, c.arCaF2);
    }
    var b := ChainCurves(BeamsplitterSlabs(sel.beamsplitter), c, c.planck);
    assert z == Through(y, b) by {
      if |b| == 1 {
        assert b[..0] == [];
      }
    }
    var z1 := z;
    var w := ChainCurves(WindowSlabs(sel.window), c, c.planck);
    if sel.window == "CaF2" {
      z := Mul(z, c.caF2);
      z := Mul(z, c.caF2);
      PairThrough(z1, c.caF2, c.caF2, w);
    } else if sel.window == "ZnSe" {
      z := Mul(z, c.znSe);
      z := Mul(z, c.znSe);
      PairThrough(z1, c.znSe, c.znSe, w);
    }
    ThroughAppend(y, b, w);
    ChainCurvesAppend(BeamsplitterSlabs(sel.beamsplitter), WindowSlabs(sel.window), c, c.planck);
  }

  lemma PairThrough(y: Curve, a: Curve, b: Curve, w: seq<Curve>)
    requires |a| == |y| && |b| == |y| && w == [a, b]
    ensures Through(y, w) == Mul(Mul(y, a), b)
  {
    assert w[..1] == [a] && w[..1][..0] == [];
    assert Through(y, w[..1]) == Mul(Through(y, []), a);
  }

  /** The detector stage of one pass: the detector's window, then the detector. */
  method DetectorOptics(y: Curve, sel: Selection, c: Curves) returns (z: Curve)
    requires CurvesOn(c, |y|)
    ensures z == Through(y, ChainCurves(DetectorSlabs(sel.detector), c, c.planck))
  {
    var d := ChainCurves(DetectorSlabs(sel.detector), c, c.planck);
    z := y;
    if sel.detector == "MCT" {
      z := Mul(z, c.znSe);
      z := Mul(z, c.mct);
      PairThrough(y, c.znSe, c.mct, d);
    } else if sel.detector == "InSb" {
      z := Mul(z, c.sapphire);
      z := Mul(z, c.inSb);
      PairThrough(y, c.sapphire, c.inSb, d);
    }
  }

  /** The front stages followed by the detector stage are the whole optics of a pass. */
  lemma PassIsChain(y: Curve, sel: Selection, c: Curves)
    requires CurvesOn(c, |y|)
    ensures Through(Through(y, ChainCurves(BeamsplitterSlabs(sel.beamsplitter) + WindowSlabs(sel.window), c, c.planck)),
                    ChainCurves(DetectorSlabs(sel.detector), c, c.planck))
         == Through(y, OpticsChain(sel, c))
  {
    var front := BeamsplitterSlabs(sel.beamsplitter) + WindowSlabs(sel.window);
    ChainCurvesAppend(front, DetectorSlabs(sel.detector), c, c.planck);
    ThroughAppend(y, ChainCurves(front, c, c.planck), ChainCurves(DetectorSlabs(sel.detector), c, c.planck));
  }

  /** The background's base of ones leaves the blackbody curve as it is. */
  lemma BackgroundBase(w: seq<real>, planck: Curve)
    requires |planck| == |w|
    ensures Mul(ZeroY(w), planck) == planck
  {
    MulOnes(planck);
  }
}
