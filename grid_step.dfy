/**
  The wavenumber-step lookup: (resolution, zero-fill) to the step handed to
  the line-by-line calculator.

  Three revisions exist. `functions.py` matches five resolution tiers and
  leaves the step unbound otherwise, so its `return wstep` raises. The two
  server revisions test the same five tiers with if/elif, starting from a step
  of 0 that survives for unmapped input. `processing_utils.py` adds two finer
  tiers below 0.0625, again leaving the step unbound for unmapped input.
  Both keys are compared with Python `==`, so `1` and `1.0` select the same
  tier; they are modelled as reals.
*/
module GridStep {
  import opened Wrappers

  /** The five resolutions the older revisions know. */
  const FiveTiers: set<real> := {1.0, 0.5, 0.25, 0.125, 0.0625}

  /** The seven resolutions of the extended table. */
  const SevenTiers: set<real> := FiveTiers + {0.03125, 0.015625}

  const ZeroFills: set<real> := {0.0, 1.0, 2.0}

  /** `__calc_wstep` of functions.py: `None` stands for the unbound `wstep`. */
  function MatchStep(resolution: real, zeroFill: real): (step: Option<real>)
    ensures step.Some? <==> resolution in FiveTiers && zeroFill in ZeroFills
    ensures step.Some? ==> 0.0 < step.value < 0.5
  {
    if resolution == 1.0 then
      if zeroFill == 0.0 then Some(0.481927711)
      else if zeroFill == 1.0 then Some(0.240963855)
      else if zeroFill == 2.0 then Some(0.120481928)
      else None
    else if resolution == 0.5 then
      if zeroFill == 0.0 then Some(0.240963855)
      else if zeroFill == 1.0 then Some(0.120481928)
      else if zeroFill == 2.0 then Some(0.060240964)
      else None
    else if resolution == 0.25 then
      if zeroFill == 0.0 then Some(0.120481928)
      else if zeroFill == 1.0 then Some(0.060240964)
      else if zeroFill == 2.0 then Some(0.030120482)
      else None
    else if resolution == 0.125 then
      if zeroFill == 0.0 then Some(0.060240964)
      else if zeroFill == 1.0 then Some(0.030120482)
      else if zeroFill == 2.0 then Some(0.015060241)
      else None
    else if resolution == 0.0625 then
      if zeroFill == 0.0 then Some(0.030120482)
      else if zeroFill == 1.0 then Some(0.015060241)
      else if zeroFill == 2.0 then Some(0.00753012)
      else None
    else None
  }

  /**
    `__calc_wstep` of api/functions.py and flask/functions.py: the same table,
    written as if/elif over a step initialised to 0. It returns the tabled step
    where functions.py has one and 0 everywhere else.
  */
  function DefaultStep(resolution: real, zeroFill: real): (step: real)
    ensures MatchStep(resolution, zeroFill).Some? ==> step == MatchStep(resolution, zeroFill).value
    ensures MatchStep(resolution, zeroFill).None? ==> step == 0.0
  {
    var wstep := 0.0;
    if resolution == 1.0 then
      if zeroFill == 0.0 then 0.481927711
      else if zeroFill == 1.0 then 0.240963855
      else if zeroFill == 2.0 then 0.120481928
      else wstep
    else if resolution == 0.5 then
      if zeroFill == 0.0 then 0.240963855
      else if zeroFill == 1.0 then 0.120481928
      else if zeroFill == 2.0 then 0.060240964
      else wstep
    else if resolution == 0.25 then
      if zeroFill == 0.0 then 0.120481928
      else if zeroFill == 1.0 then 0.060240964
      else if zeroFill == 2.0 then 0.030120482
      else wstep
    else if resolution == 0.125 then
      if zeroFill == 0.0 then 0.060240964
      else if zeroFill == 1.0 then 0.030120482
      else if zeroFill == 2.0 then 0.015060241
      else wstep
    else if resolution == 0.0625 then
      if zeroFill == 0.0 then 0.030120482
      else if zeroFill == 1.0 then 0.015060241
      else if zeroFill == 2.0 then 0.00753012
      else wstep
    else wstep
  }

  /**
    `calc_wstep` of processing_utils.py: seven tiers, `None` for the unbound
    step. On the five shared tiers it agrees with functions.py.
  */
  function ExtendedStep(resolution: real, zeroFill: real): (step: Option<real>)
    ensures step.Some? <==> resolution in SevenTiers && zeroFill in ZeroFills
    ensures resolution in FiveTiers ==> step == MatchStep(resolution, zeroFill)
  {
    if resolution == 1.0 then
      if zeroFill == 0.0 then Some(0.481927711)
      else if zeroFill == 1.0 then Some(0.240963855)
      else if zeroFill == 2.0 then Some(0.120481928)
      else None
    else if resolution == 0.5 then
      if zeroFill == 0.0 then Some(0.240963855)
      else if zeroFill == 1.0 then Some(0.120481928)
      else if zeroFill == 2.0 then Some(0.060240964)
      else None
    else if resolution == 0.25 then
      if zeroFill == 0.0 then Some(0.120481928)
      else if zeroFill == 1.0 then Some(0.060240964)
      else if zeroFill == 2.0 then Some(0.030120482)
      else None
    else if resolution == 0.125 then
      if zeroFill == 0.0 then Some(0.060240964)
      else if zeroFill == 1.0 then Some(0.030120482)
      else if zeroFill == 2.0 then Some(0.015060241)
      else None
    else if resolution == 0.0625 then
      if zeroFill == 0.0 then Some(0.030120482)
      else if zeroFill == 1.0 then Some(0.015060241)
      else if zeroFill == 2.0 then Some(0.00753012)
      else None
    else if resolution == 0.03125 then
      if zeroFill == 0.0 then Some(0.01506)
      else if zeroFill == 1.0 then Some(0.00753)
      else if zeroFill == 2.0 then Some(0.003765)
      else None
    else if resolution == 0.015625 then
      if zeroFill == 0.0 then Some(0.00753)
      else if zeroFill == 1.0 then Some(0.003765)
      else if zeroFill == 2.0 then Some(0.001883)
      else None
    else None
  }

  // ---------------------------------------------------------------------------
  // Table properties
  // ---------------------------------------------------------------------------

  /** Documented table entries. */
  lemma TableValues()
    ensures MatchStep(1.0, 0.0) == Some(0.481927711)
    ensures MatchStep(1.0, 2.0) == Some(0.120481928)
    ensures MatchStep(0.0625, 2.0) == Some(0.00753012)
    ensures ExtendedStep(1.0, 0.0) == Some(0.481927711)
    ensures ExtendedStep(0.0625, 2.0) == Some(0.00753012)
    ensures ExtendedStep(0.015625, 2.0) == Some(0.001883)
    ensures DefaultStep(0.125, 1.0) == 0.030120482
  {
  }

  /** More zero-fill means a finer step, in every revision. */
  lemma StepFallsWithZeroFill(resolution: real, zeroFill: real)
    requires ExtendedStep(resolution, zeroFill).Some?
    requires ExtendedStep(resolution, zeroFill + 1.0).Some?
    ensures ExtendedStep(resolution, zeroFill + 1.0).value < ExtendedStep(resolution, zeroFill).value
  {
  }

  /** Halving the resolution gives a finer step, across all seven tiers. */
  lemma StepFallsWithResolution(resolution: real, zeroFill: real)
    requires ExtendedStep(resolution, zeroFill).Some?
    requires ExtendedStep(resolution / 2.0, zeroFill).Some?
    ensures ExtendedStep(resolution / 2.0, zeroFill).value < ExtendedStep(resolution, zeroFill).value
  {
  }

  /**
    In the five-tier table one more zero-fill level is exactly one halving of
    the resolution: step(r, z + 1) == step(r / 2, z).
  */
  lemma MatchDiagonal(resolution: real, zeroFill: real)
    requires MatchStep(resolution, zeroFill + 1.0).Some?
    requires MatchStep(resolution / 2.0, zeroFill).Some?
    ensures MatchStep(resolution, zeroFill + 1.0) == MatchStep(resolution / 2.0, zeroFill)
  {
  }

  /**
    The extended table keeps that diagonal inside 1 .. 0.0625 and inside
    0.03125 .. 0.015625, but not from 0.0625 to 0.03125, whose entries are
    rounded differently.
  */
  lemma ExtendedDiagonal(resolution: real, zeroFill: real)
    requires ExtendedStep(resolution, zeroFill + 1.0).Some?
    requires ExtendedStep(resolution / 2.0, zeroFill).Some?
    ensures resolution != 0.0625 ==>
      ExtendedStep(resolution, zeroFill + 1.0) == ExtendedStep(resolution / 2.0, zeroFill)
    ensures resolution == 0.0625 ==>
      ExtendedStep(resolution, zeroFill + 1.0) != ExtendedStep(resolution / 2.0, zeroFill)
  {
  }

  /** Unmapped keys: the step is unbound (an exception) or the default 0. */
  lemma UnmappedKeys(resolution: real, zeroFill: real)
    requires resolution !in SevenTiers || zeroFill !in ZeroFills
    ensures ExtendedStep(resolution, zeroFill).None?
    ensures MatchStep(resolution, zeroFill).None?
    ensures DefaultStep(resolution, zeroFill) == 0.0
  {
  }
}
