# Virtual FTIR spectrometer: the discrete core, modelled in Dafny

The Virtual-FTIR functions simulate the readout of a Fourier-transform infrared
spectrometer. A line-by-line calculator produces the transmittance of a gas
sample on a wavenumber grid. The spectrometer's optical path is then applied by
composing "slabs": the blackbody source, an optional beamsplitter, the cell
window (crossed twice) and the detector behind its protective window. Scan
noise is added, and the result is returned as a spectrum or as an x -> y
dictionary. Four revisions of that pipeline exist side by side:

- `processing_utils.py` and `processing.py`: the current library;
- `functions.py`: the older single-pass library;
- `api/functions.py` and `flask/functions.py`: two server revisions that
  repeat the optics once per scan.

This project models the discrete parts around the floating-point formulas:

- the grid-step tables;
- the slab chains and their composition;
- the chunked multi-scan noise;
- the peak filter;
- the parameter checks;
- the dictionary conversion;
- the background of ones;
- the error mapping of the calculator;
- the per-scan loops of the two servers.

Modules, one per file:

| file | module | what it holds |
|---|---|---|
| wrappers.dfy | `Wrappers` | `Option` and `Result` |
| spectra.dfy | `Spectra` | curves as `seq<real>`, pointwise product/sum/scale, mean and max normalisation, `SerialSlabs` as the product of a chain, column sums of a noise matrix |
| grid_step.dfy | `GridStep` | the three wavenumber-step tables |
| optics.dfy | `Optics` | selectors, the slab order, the curve library and its sampling on a grid |
| processing_utils.dfy | `ProcessingUtils` | `multiscan` and `get_component_spectra` |
| processing.dfy | `Processing` | `__process_spectrum`, `__process_background`, `__generate_spectrum` |
| peaks.dfy | `PeakFinder` | `__find_peaks` |
| params.dfy | `Params` | the parameter checks of every revision |
| dicts.dfy | `Dicts` | `__loadData` and the sum of a dictionary's values |
| functions_legacy.dfy | `LegacyFunctions` | `__process_spectrum` of functions.py |
| scan_loop.dfy | `ScanLoop` | one optics pass of the server loops, shared by both servers |
| api.dfy | `ApiFunctions` | `__process_spectra`, `__generate_spectra`, `__generate_background` of api/functions.py |
| flask.dfy | `FlaskFunctions` | the renormalising loop of flask/functions.py and its two generators |

Modelling conventions:

- Floating-point values are modelled as reals.
- A Python exception is a `Failure` of a `Result`.
- The calculator, the curve formulas and the random draws are inputs:
  - the calculator is a function from the step to a spectrum or an error;
  - the curve library is a record of response functions sampled on the grid;
  - the Gaussian draws are explicit rows.
- A Python dict is a Dafny `map`; updating an existing key overwrites it, as in Python.

## Model

| member | source | states |
|---|---|---|
| GridStep.ExtendedStep | processing_utils.py:281-358 | a step exists exactly for the 7 resolutions x zero-fills 0, 1, 2 (unmapped input leaves `wstep` unbound); on the five shared tiers it equals the functions.py table |
| GridStep.MatchStep | functions.py:268-328 | a step exists exactly for the 5 resolutions x zero-fills 0, 1, 2; every step lies in (0, 0.5) |
| GridStep.DefaultStep | api/functions.py:284-343 | the five-tier step where one is tabled, otherwise the initial 0 (flask/functions.py:182-231 is the same code) |
| GridStep.TableValues | processing_utils.py:292-356 | documented entries: (1,0) -> 0.481927711, (1,2) -> 0.120481928, (0.0625,2) -> 0.00753012, (0.015625,2) -> 0.001883, and the default table at (0.125,1) |
| GridStep.StepFallsWithZeroFill | processing_utils.py:292-356 | for a fixed resolution, one more zero-fill level gives a strictly smaller step |
| GridStep.StepFallsWithResolution | processing_utils.py:292-356 | for a fixed zero-fill, halving the resolution gives a strictly smaller step, across all 7 tiers |
| GridStep.MatchDiagonal | functions.py:280-326 | step(r, z+1) == step(r/2, z) throughout the five-tier table |
| GridStep.ExtendedDiagonal | processing_utils.py:331-356 | the same diagonal holds in the extended table except from 0.0625 to 0.03125, where it fails |
| GridStep.UnmappedKeys | processing_utils.py:292-358 | outside the tables the 7-tier and 5-tier lookups have no step and the default table gives 0 |
| Spectra.ZeroY | processing_utils.py:225-235 | `(w * 0) + 1` has one entry per grid value, all equal to 1 (also functions.py:216, api/functions.py:186, flask/functions.py:123) |
| Spectra.NormalizeMean | processing.py:47 | dividing by the mean gives a curve of mean 1 that times the old mean is the old curve |
| Spectra.NormalizeMeanInverse | processing.py:47 | scaling the normalised curve by the old mean gives the whole curve back |
| Spectra.NormalizeMax | processing_utils.py:429 | dividing by the maximum divides every point by it; with a positive maximum the new maximum is 1 |
| Spectra.SerialSlabs | processing.py:149-151 | an empty chain fails; otherwise success exactly when all slabs share the first grid, with the result on that grid |
| Spectra.SerialSlabsBackground | processing.py:169-177 | composing a spectrum with the ones on its grid gives the spectrum back |
| Spectra.ProductAppend | processing.py:149-151 | the product of two chains one after the other is the pointwise product of their products |
| Spectra.ProductPermutation | processing.py:115-151 | any reordering of the slabs gives the same product |
| Spectra.ColumnSumAppend | processing_utils.py:385-402 | the column sums of a split noise matrix add up to those of the whole matrix |
| Optics.Evaluate | processing.py:37-112 | every component curve is sampled on the raw spectrum's grid |
| Optics.OpticsSlabCount | processing.py:125-147 | a recognised beamsplitter adds one slab, a window two, a detector two; unrecognised selectors add none |
| Optics.FullChain | processing.py:125-147 | the chain has exactly 7 slabs if and only if all three selectors are recognised |
| Optics.ChainStart | processing.py:115-135 | the chain starts raw, blackbody; neither occurs again, and a beamsplitter can only be third |
| Optics.DetectorLast | processing.py:139-147 | a recognised detector is the last slab, right after its window (ZnSe for MCT, sapphire for InSb) |
| Optics.WindowTwice | processing.py:131-135 | a recognised cell window occupies the two slabs right before the detector slabs |
| Optics.ReferenceChain | processing.py:115-147 | AR_ZnSe / CaF2 / MCT gives the curves raw, blackbody, AR_ZnSe, CaF2, CaF2, ZnSe, MCT |
| Optics.ReferenceConfiguration | processing.py:115-151 | for AR_ZnSe / CaF2 / MCT each point of the composed spectrum is the product of those seven values |
| ProcessingUtils.Multiscanned | processing_utils.py:385-402 | with scans, each point gains its column sum of all drawn rows divided by the scan count; with none, the curve is unchanged |
| ProcessingUtils.Multiscan | processing_utils.py:361-404 | the chunked loop gives the same spectrum as one sum over all rows divided by the scan count, and the groups it draws are those of `GroupSizes` |
| ProcessingUtils.DrawGroup | processing_utils.py:386-390 | adding one group of rows, summed and divided by the scan count, keeps the running spectrum equal to the base plus the scaled sum of every row drawn so far |
| ProcessingUtils.GroupPlan | processing_utils.py:377-397 | full groups of ten, then a remainder equal to the count modulo ten when non-zero; together they draw exactly as many rows as scans |
| ProcessingUtils.MultiscanNoScans | processing_utils.py:379-394 | with no scans nothing is drawn and the curve is returned unchanged |
| ProcessingUtils.ComponentSpectra | processing_utils.py:407-503 | blackbody and MCT divided by their maximum (maximum 1), InSb divided by its maximum and doubled (maximum 2), the powered optics curves unchanged |
| Processing.Prepared | processing.py:40-147 | blackbody, beamsplitters, windows and sapphire have mean 1; the selected detector has mean 1; the other detector stays raw; without a recognised detector both detectors stay raw |
| Processing.PreparedRestores | processing.py:40-147 | each mean-normalised curve times the mean it was divided by is the sampled curve; the selected detector times its mean is its scan-noised (`Multiscanned`) response, so the noise is applied once, only to that detector, before the normalisation |
| Processing.FrontSlabs | processing.py:117-135 | the `append`/`extend` calls give the slabs of raw, blackbody, beamsplitter and cell window twice, in that order |
| Processing.ProcessSpectrum | processing.py:9-154 | the result is on the raw grid and is the product of the prepared curves in the slab order of the selection |
| Processing.NoScansNoNoise | processing.py:139-147 | with no scans the detector enters the chain only mean-normalised |
| Processing.ProcessBackground | processing.py:157-179 | the background is on the raw grid with every value 1 (functions.py:543-565 is the same code) |
| Processing.BackgroundIsIdentity | processing.py:169-177 | the background is the identity of the slab product |
| Processing.ErrorMessage | processing.py:220-231 | no lines in range -> the fixed range message; the HITRAN retrieval failure -> the HITRAN message; any other error -> its own text |
| Processing.MessageIdentifiesError | processing.py:220-231 | apart from the two fixed messages, different errors give different messages |
| Processing.GenerateSpectrum | processing.py:182-233 | fails exactly when the five-tier step is unbound; otherwise the error flag, the spectrum and the message follow the calculator's outcome (functions.py:492-540 maps the same way) |
| PeakFinder.IndexOf | processing.py:250 | `list.index`: absent exactly when the value is missing, otherwise the first position holding it |
| PeakFinder.Round4 | processing.py:253 | within 0.00005 of the value and a whole number of 0.0001 |
| PeakFinder.PeakSearch | processing.py:236-255 | no detection exactly when the detector raised |
| PeakFinder.FindPeaks | processing.py:236-255 | the loop gives the result of the line-by-line filter |
| PeakFinder.FoundPeaks | processing.py:246-255 | every qualifying line (on the grid, in bounds, emission, response at or above the threshold) gives a key; every key holds the rounded response of a qualifying line with that rounded centre |
| PeakFinder.LastPeakWins | processing.py:246-255 | of several qualifying lines with one rounded centre, the last one's rounded response is the value kept |
| PeakFinder.FailsIff | processing.py:249-252 | the filter raises exactly when some line is off the grid or, in bounds and emission, has no response value |
| Params.CheckParams | processing_utils.py:239-277 | true exactly when the count matches, every key is valid and no value is None; a false answer with the right count names a bad pair (functions.py:229-265 is the same loop over 11 names) |
| Params.UtilsCheckExact | processing_utils.py:251-277 | accepted exactly when the key set is the 13 names and no value is None |
| Params.LegacyCheckExact | functions.py:241-265 | accepted exactly when the key set is the 11 names and no value is None; empty strings pass |
| Params.DescribeParams | api/functions.py:240-281 | the wrong count is reported first; otherwise None exactly when every pair is usable, else the first pair in dictionary order that is not (flask/functions.py:148-179 is the same code) |
| Params.ServerCheckExact | api/functions.py:252-281 | the servers accept exactly the 11 names with no "" and no None, strictly fewer requests than functions.py |
| Dicts.ZipFacts | api/functions.py:232-237 | the dict's keys are the first min(len) x values; it has at most that many entries; each key holds the value of its last pair |
| Dicts.LoadData | api/functions.py:221-237 | the loop builds that dict; later duplicates win, and pairs past the shorter input are ignored (flask/functions.py:139-145 is the same code) |
| Dicts.SumValues | flask/functions.py:381 | the loop over the keys sums every value once, in any order |
| Dicts.MapSumRemove | flask/functions.py:381 | the sum of the values does not depend on which key comes first |
| Dicts.DistinctZipTotal | flask/functions.py:378-381 | on a grid without repeated values the dict's total is the sum of the curve |
| Dicts.NormalisedTotal | flask/functions.py:378-383 | on a grid without repeated values, dividing a curve by its dict's total makes the rebuilt dict's values sum to 1 |
| LegacyFunctions.LegacySpectrum | functions.py:464-473 | raises for a negative count (ValueError) and for zero (ZeroDivisionError); otherwise the mean-normalised product plus the column sums of the noise divided by the count |
| LegacyFunctions.ComposeSlabs | functions.py:430-462 | the slab list built by the selectors is the product of the sampled curves in slab order |
| LegacyFunctions.ProcessSpectrumLegacy | functions.py:334-489 | the whole single pass gives `LegacySpectrum` of the sampled curves |
| LegacyFunctions.LegacyTotal | functions.py:464-473 | the result sums to the number of grid points plus the noise total divided by the count |
| ScanLoop.PairIsMul | api/functions.py:472-499 | composing two spectra on one grid is their pointwise product |
| ScanLoop.ThroughAppend | api/functions.py:475-499 | passing through two slab lists in turn is passing through their concatenation |
| ScanLoop.ThroughIsProduct | api/functions.py:475-499 | multiplying slab by slab is multiplying by the product of the slabs |
| ScanLoop.FrontOptics | api/functions.py:480-491 | the beamsplitter and the cell window twice, in chain order |
| ScanLoop.DetectorOptics | api/functions.py:494-499 | the detector's window, then the detector |
| ScanLoop.PassIsChain | api/functions.py:480-499 | the front stages and then the detector stage are the whole optics of one pass |
| ScanLoop.BackgroundBase | api/functions.py:596-609 | the background's base of ones times the blackbody is the blackbody |
| ApiFunctions.ScanCount | api/functions.py:475 | `range(numScan)` runs `numScan` times, and not at all for a count of zero or less |
| ApiFunctions.ProcessSpectra | api/functions.py:356-521 | the loop gives the dict of `ApiScans`; with no scans it is base x blackbody |
| ApiFunctions.ApiPass | api/functions.py:480-505 | one pass multiplies in the optics slab by slab and then adds one noise row |
| ApiFunctions.NoiselessChain | api/functions.py:472-505 | without noise, k passes give one chain: raw, blackbody, then the optics k times |
| ApiFunctions.ChainLength | api/functions.py:472-499 | that chain has 2 + k(b + 2w + 2d) slabs |
| ApiFunctions.GenerateSpectra | api/functions.py:524-559 | `False` exactly when the calculator raises at the default-table step; otherwise the processed dict |
| ApiFunctions.GenerateBackground | api/functions.py:561-609 | the same, with a base of ones on the calculated grid |
| ApiFunctions.BackgroundNoScans | api/functions.py:596-609 | a background without scans is the blackbody on the grid |
| FlaskFunctions.NoisyCurves | flask/functions.py:360-375 | only the selected detector carries noise; every other curve stays as sampled |
| FlaskFunctions.Renormalise | flask/functions.py:378-383 | build the dict, sum its values, raise on a zero total, else divide the curve by the total |
| FlaskFunctions.FlaskPass | flask/functions.py:346-375 | one pass: the front optics, then the detector's window and the detector, whose curve first gains this pass's noise row |
| FlaskFunctions.FailureSticks | flask/functions.py:342-383 | once a pass raises, the loop never returns a dict |
| FlaskFunctions.StepOutcome | flask/functions.py:377-383 | a pass either gives the next curve of `FlaskScans` or, with a zero total, fixes the loop's outcome to the error |
| FlaskFunctions.FlaskIteration | flask/functions.py:344-383 | one loop body: the next curve of `FlaskScans` and the detector curves of the next pass, or a stop whose outcome is the error |
| FlaskFunctions.PassLoop | flask/functions.py:342-383 | after `numScan` passes the curve is `FlaskScans` at the number of passes, or the error of the first pass with a zero total |
| FlaskFunctions.FlaskLoop | flask/functions.py:339-394 | the blackbody, the loop and the final dict give `FlaskResult`; with no scans it is base x blackbody, unnormalised |
| FlaskFunctions.PassesNormalise | flask/functions.py:377-383 | after every pass the values of the transmittance dict sum to 1 |
| FlaskFunctions.NoiseAccumulates | flask/functions.py:360-375 | before the first pass no curve carries noise; the selected detector of pass k + 1 is that of pass k plus row k, not a fresh row |
| FlaskFunctions.GenerateSpectra | flask/functions.py:234-394 | `False` exactly when the calculator raises; otherwise the loop's dict, or its ZeroDivisionError |
| FlaskFunctions.GenerateBackground | flask/functions.py:396-557 | the same loop on a base of ones over the calculated grid |

## Left out

- Curve formulas (`__sPlanck`, `__CaF2`, `__ZnSe`, `__sapphire`, `__AR_ZnSe`, `__AR_CaF2`, `__InSb`, `__MCT`) and the fractional powers of `get_component_spectra` are transcendental floating-point maths. They are opaque response functions of a `Library`.
- radis and specutils internals are modelled only by their observable effect. `calc_spectrum` is a parameter. `SerialSlabs` is the pointwise product on a shared grid. `normalize` divides by the mean or the maximum. `add_array` adds pointwise.
- `np.random.normal` is replaced by explicit noise rows. Variance and the scale constants of the draws (0.005, 1, 2e7, 2e8) are not modelled.
- Floating-point rounding, NaN and infinities are not modelled. Reals stand in for floats. Dividing by a zero mean or maximum (numpy gives inf/NaN) is excluded by a precondition (`MeanNormalisable`, `DetectorNormalisable`, the `Max(...) != 0.0` and `Sum(...) != 0.0` requirements).
- Dicts.MapSum: Python adds the values in dictionary order in floating point. The model sums exact reals, where the order does not matter.
- FlaskFunctions.PassesNormalise and Dicts.NormalisedTotal: proved only for grids without repeated values. On a grid with repeats the dict drops the overwritten values, and the total of the rebuilt dict is not covered.
- Params.DescribeParams: returns the problem as a datatype (`WrongCount`, `BadKey`), not the formatted message text.
- The `print` logging of every revision is not modelled, including `print(lines)` in flask/functions.py:391-392.
- The peak search of flask/functions.py:387-390 is left out. It runs after the loop and its result is unused; an exception it raises is not modelled.
- ApiFunctions.GenerateSpectra: the `__find_peaks` of api/functions.py:349-353, which `__generate_spectra` triggers (api/functions.py:559), is left out. It calls `to_specutils` and `find_lines_threshold` and writes `lines.txt`, and its result is unused; an exception it raises would escape `__generate_spectra` and is not modelled, so the model always returns the dict. The `find_peaks` flag of `__process_spectra` is therefore not a parameter.
- The `find_peaks` parameter of functions.py `__process_spectrum` is left out. Its only use is commented out.
- processing.py:5 imports `__multiscan` from functions.py, which defines none. The model uses `multiscan` of processing_utils.py:361-404 in its place.
- Wavelength versus wavenumber is not modelled. The servers sample on `get_wavelength()` and the libraries on `get_wavenumber()`; each is one grid here.
- The `float(...)` conversions of `__loadData` are not modelled, because values are already reals.
- Both flask generators share one loop method, `FlaskLoop` (its pass loop is `PassLoop`). The source repeats the same loop text in each generator.
- Each `SerialSlabs(spectrum, spec_X)` of the server loops is modelled as a pointwise product (`ScanLoop.PairIsMul`).
- HTTP transport, JSON marshalling, plotting and file output are not part of this model: app.py, api/fast_api.py, api/flask_api.py, flask/app.py, wsgi.py, api/spectrum.py, api/background.py.
