/**
  `__find_peaks` of processing.py: the filter applied to the lines a
  threshold detector reports.

  The detector itself (building a specutils spectrum and running
  `find_lines_threshold`) is an input: `None` when it raised, otherwise the
  detected lines as (centre, kind) pairs in the order it reports them.
*/
module PeakFinder {
  import opened Wrappers

  datatype LineKind = Emission | Absorption

  datatype Line = Line(center: real, kind: LineKind)

  /** What the loop raises: a centre not on the grid (ValueError), a response index past `y` (IndexError). */
  datatype PeakFault = CenterNotOnGrid(center: real) | ResponseMissing(index: nat)

  datatype PeakResult = NoDetection | PeakFailure(fault: PeakFault) | Peaks(peaks: map<real, real>)

  /** `list.index`: the first position holding `v`. */
  function IndexOf(xs: seq<real>, v: real): (r: Option<nat>)
    ensures r.None? <==> v !in xs
    ensures r.Some? ==> r.value < |xs| && xs[r.value] == v && forall j :: 0 <= j < r.value ==> xs[j] != v
  {
    if |xs| == 0 then None
    else if xs[0] == v then Some(0)
    else match IndexOf(xs[1..], v)
      case None => None
      case Some(k) => Some(k + 1)
  }

  /**
    Python's `round(v, 4)` on the exact value: to the nearest multiple of
    0.0001, ties to the even multiple.
  */
  function Round4(v: real): (r: real)
    ensures -0.00005 <= r - v <= 0.00005
    ensures (r * 10000.0).Floor as real == r * 10000.0
  {
    var s := v * 10000.0;
    var f := s.Floor;
    var frac := s - f as real;
    var n := if frac < 0.5 then f else if frac > 0.5 then f + 1 else if f % 2 == 0 then f else f + 1;
    n as real / 10000.0
  }

  /** A line that contributes a peak: on the grid, inside the bounds, emission, above threshold. */
  predicate Qualifies(x: seq<real>, y: seq<real>, lower: real, upper: real, threshold: real, line: Line) {
    match IndexOf(x, line.center)
    case None => false
    case Some(i) => lower <= x[i] <= upper && line.kind == Emission && i < |y| && y[i] >= threshold
  }

  /** A line on which the loop raises. */
  predicate Faulty(x: seq<real>, y: seq<real>, lower: real, upper: real, line: Line) {
    match IndexOf(x, line.center)
    case None => true
    case Some(i) => lower <= x[i] <= upper && line.kind == Emission && i >= |y|
  }

  /** The peak a qualifying line records: rounded centre to rounded response. */
  function PeakKey(line: Line): real { Round4(line.center) }

  function PeakValue(x: seq<real>, y: seq<real>, line: Line): real
    requires line.center in x && IndexOf(x, line.center).value < |y|
  {
    Round4(y[IndexOf(x, line.center).value])
  }

  /** The loop over the lines, from `peaks` on: record qualifying lines, stop at the first fault. */
  function ScanLines(x: seq<real>, y: seq<real>, lower: real, upper: real, threshold: real,
                     lines: seq<Line>, peaks: map<real, real>): Result<map<real, real>, PeakFault>
    decreases |lines|
  {
    if |lines| == 0 then Success(peaks)
    else
      var line := lines[0];
      match IndexOf(x, line.center)
      case None => Failure(CenterNotOnGrid(line.center))
      case Some(i) =>
        if lower <= x[i] && x[i] <= upper && line.kind == Emission then
          if i >= |y| then Failure(ResponseMissing(i))
          else if y[i] >= threshold then
            ScanLines(x, y, lower, upper, threshold, lines[1..], peaks[Round4(line.center) := Round4(y[i])])
          else ScanLines(x, y, lower, upper, threshold, lines[1..], peaks)
        else ScanLines(x, y, lower, upper, threshold, lines[1..], peaks)
  }

  /** The whole search: no detection, a fault, or the peaks of all lines. */
  function PeakSearch(x: seq<real>, y: seq<real>, lower: real, upper: real, threshold: real,
                      detected: Option<seq<Line>>): (r: PeakResult)
    ensures r == NoDetection <==> detected.None?
  {
    match detected
    case None => NoDetection
    case Some(lines) =>
      match ScanLines(x, y, lower, upper, threshold, lines, map[])
      case Failure(fault) => PeakFailure(fault)
      case Success(peaks) => Peaks(peaks)
  }

  /** `__find_peaks`: the loop filling the peak dictionary. */
  method FindPeaks(x: seq<real>, y: seq<real>, lower: real, upper: real, threshold: real,
                   detected: Option<seq<Line>>) returns (r: PeakResult)
    ensures r == PeakSearch(x, y, lower, upper, threshold, detected)
  {
    if detected.None? {
      return NoDetection;
    }
    var lines := detected.value;
    var peaks: map<real, real> := map[];
    for k := 0 to |lines|
      invariant ScanLines(x, y, lower, upper, threshold, lines, map[])
             == ScanLines(x, y, lower, upper, threshold, lines[k..], peaks)
    {
      assert lines[k..][1..] == lines[k + 1..];
      var line := lines[k];
      var index := IndexOf(x, line.center);
      if index.None? {
        return PeakFailure(CenterNotOnGrid(line.center));
      }
      var i := index.value;
      if x[i] >= lower && x[i] <= upper {
        if line.kind == Emission {
          if i >= |y| {
            return PeakFailure(ResponseMissing(i));
          }
          if y[i] >= threshold {
            peaks := peaks[Round4(line.center) := Round4(y[i])];
          }
        }
      }
    }
    assert lines[|lines|..] == [];
    return Peaks(peaks);
  }

  // ---------------------------------------------------------------------------
  // Properties of the filter
  // ---------------------------------------------------------------------------

  /** The loop raises exactly when some line is faulty. */
  lemma {:induction false} ScanFailsIff(x: seq<real>, y: seq<real>, lower: real, upper: real, threshold: real,
                                         lines: seq<Line>, peaks: map<real, real>)
    ensures ScanLines(x, y, lower, upper, threshold, lines, peaks).Failure?
        <==> exists j :: 0 <= j < |lines| && Faulty(x, y, lower, upper, lines[j])
  {
    if |lines| > 0 {
      var line := lines[0];
      var rest := lines[1..];
      assert forall j :: 0 <= j < |rest| ==> rest[j] == lines[j + 1];
      match IndexOf(x, line.center)
      case None =>
        assert Faulty(x, y, lower, upper, lines[0]);
      case Some(i) =>
        var next := if lower <= x[i] && x[i] <= upper && line.kind == Emission && i < |y| && y[i] >= threshold
                    then peaks[Round4(line.center) := Round4(y[i])] else peaks;
        ScanFailsIff(x, y, lower, upper, threshold, rest, next);
        if (exists j :: 0 <= j < |lines| && Faulty(x, y, lower, upper, lines[j])) && !Faulty(x, y, lower, upper, line) {
          var j :| 0 <= j < |lines| && Faulty(x, y, lower, upper, lines[j]);
          assert j > 0 && Faulty(x, y, lower, upper, rest[j - 1]);
        }
    }
  }

  /**
    Soundness and completeness of the filter from `peaks` on: every qualifying
    line's rounded centre is a key; every key not already present comes from
    a qualifying line and holds its rounded response.
  */
  lemma {:induction false} ScanSoundComplete(x: seq<real>, y: seq<real>, lower: real, upper: real, threshold: real,
                                              lines: seq<Line>, peaks: map<real, real>)
    requires ScanLines(x, y, lower, upper, threshold, lines, peaks).Success?
    ensures var found := ScanLines(x, y, lower, upper, threshold, lines, peaks).value;
      && peaks.Keys <= found.Keys
      && (forall j :: 0 <= j < |lines| && Qualifies(x, y, lower, upper, threshold, lines[j]) ==> PeakKey(lines[j]) in found)
      && (forall k :: k in found ==>
            || (k in peaks && found[k] == peaks[k])
            || exists j :: 0 <= j < |lines| && Qualifies(x, y, lower, upper, threshold, lines[j])
                           && PeakKey(lines[j]) == k && found[k] == PeakValue(x, y, lines[j]))
  {
    if |lines| > 0 {
      var line := lines[0];
      var rest := lines[1..];
      assert forall j :: 0 <= j < |rest| ==> rest[j] == lines[j + 1];
      var i := IndexOf(x, line.center).value;
      var q := Qualifies(x, y, lower, upper, threshold, line);
      var next := if q then peaks[PeakKey(line) := PeakValue(x, y, line)] else peaks;
      assert ScanLines(x, y, lower, upper, threshold, lines, peaks) == ScanLines(x, y, lower, upper, threshold, rest, next);
      ScanSoundComplete(x, y, lower, upper, threshold, rest, next);
      var found := ScanLines(x, y, lower, upper, threshold, rest, next).value;
      forall j | 0 <= j < |lines| && Qualifies(x, y, lower, upper, threshold, lines[j])
        ensures PeakKey(lines[j]) in found
      {
        if j > 0 {
          assert rest[j - 1] == lines[j];
        }
      }
      forall k | k in found
        ensures
          || (k in peaks && found[k] == peaks[k])
          || exists j :: 0 <= j < |lines| && Qualifies(x, y, lower, upper, threshold, lines[j])
                         && PeakKey(lines[j]) == k && found[k] == PeakValue(x, y, lines[j])
      {
        if !(k in next && found[k] == next[k]) {
          var j :| 0 <= j < |rest| && Qualifies(x, y, lower, upper, threshold, rest[j])
                   && PeakKey(rest[j]) == k && found[k] == PeakValue(x, y, rest[j]);
          assert lines[j + 1] == rest[j];
        } else if q && k == PeakKey(line) {
          assert lines[0] == line;
        }
      }
    }
  }

  /**
    On success, the peaks are exactly those of the qualifying lines: each
    qualifying line's rounded centre is a key, and each key holds the rounded
    response of some qualifying line with that centre. Absorption lines and
    lines outside the bounds or below the threshold never contribute.
  */
  lemma FoundPeaks(x: seq<real>, y: seq<real>, lower: real, upper: real, threshold: real, lines: seq<Line>)
    requires PeakSearch(x, y, lower, upper, threshold, Some(lines)).Peaks?
    ensures var found := PeakSearch(x, y, lower, upper, threshold, Some(lines)).peaks;
      && (forall j :: 0 <= j < |lines| && Qualifies(x, y, lower, upper, threshold, lines[j]) ==> PeakKey(lines[j]) in found)
      && (forall k :: k in found ==>
            exists j :: 0 <= j < |lines| && Qualifies(x, y, lower, upper, threshold, lines[j])
                        && PeakKey(lines[j]) == k && found[k] == PeakValue(x, y, lines[j]))
  {
    ScanSoundComplete(x, y, lower, upper, threshold, lines, map[]);
  }

  /** Line `j` qualifies and no later line qualifies with the same rounded centre. */
  predicate LastQualifying(x: seq<real>, y: seq<real>, lower: real, upper: real, threshold: real,
                           lines: seq<Line>, j: nat)
    requires j < |lines|
  {
    && Qualifies(x, y, lower, upper, threshold, lines[j])
    && forall l :: j < l < |lines| && Qualifies(x, y, lower, upper, threshold, lines[l]) ==>
         PeakKey(lines[l]) != PeakKey(lines[j])
  }

  /** From `peaks` on, the last qualifying line with a given rounded centre decides its value. */
  lemma {:induction false} ScanLastWins(x: seq<real>, y: seq<real>, lower: real, upper: real, threshold: real,
                                         lines: seq<Line>, peaks: map<real, real>, j: nat)
    requires ScanLines(x, y, lower, upper, threshold, lines, peaks).Success?
    requires j < |lines| && LastQualifying(x, y, lower, upper, threshold, lines, j)
    ensures PeakKey(lines[j]) in ScanLines(x, y, lower, upper, threshold, lines, peaks).value
    ensures ScanLines(x, y, lower, upper, threshold, lines, peaks).value[PeakKey(lines[j])]
         == PeakValue(x, y, lines[j])
  {
    var line := lines[0];
    var rest := lines[1..];
    var q := Qualifies(x, y, lower, upper, threshold, line);
    var next := if q then peaks[PeakKey(line) := PeakValue(x, y, line)] else peaks;
    assert ScanLines(x, y, lower, upper, threshold, lines, peaks) == ScanLines(x, y, lower, upper, threshold, rest, next);
    if j == 0 {
      ScanSoundComplete(x, y, lower, upper, threshold, rest, next);
      var k := PeakKey(line);
      assert forall l :: 0 <= l < |rest| ==> rest[l] == lines[l + 1];
    } else {
      assert rest[j - 1] == lines[j];
      forall l | j - 1 < l < |rest| && Qualifies(x, y, lower, upper, threshold, rest[l])
        ensures PeakKey(rest[l]) != PeakKey(rest[j - 1])
      {
        assert rest[l] == lines[l + 1];
      }
      ScanLastWins(x, y, lower, upper, threshold, rest, next, j - 1);
    }
  }

  /**
    As in the Python loop, where a later `peaks[key] = value` overwrites an
    earlier one: the key of the last qualifying line with a given rounded
    centre holds that line's rounded response.
  */
  lemma LastPeakWins(x: seq<real>, y: seq<real>, lower: real, upper: real, threshold: real,
                     lines: seq<Line>, j: nat)
    requires PeakSearch(x, y, lower, upper, threshold, Some(lines)).Peaks?
    requires j < |lines| && LastQualifying(x, y, lower, upper, threshold, lines, j)
    ensures PeakKey(lines[j]) in PeakSearch(x, y, lower, upper, threshold, Some(lines)).peaks
    ensures PeakSearch(x, y, lower, upper, threshold, Some(lines)).peaks[PeakKey(lines[j])]
         == PeakValue(x, y, lines[j])
  {
    ScanLastWins(x, y, lower, upper, threshold, lines, map[], j);
  }

  /** The search raises exactly when a line is off the grid or its response is missing. */
  lemma FailsIff(x: seq<real>, y: seq<real>, lower: real, upper: real, threshold: real, lines: seq<Line>)
    ensures PeakSearch(x, y, lower, upper, threshold, Some(lines)).PeakFailure?
        <==> exists j :: 0 <= j < |lines| && Faulty(x, y, lower, upper, lines[j])
  {
    ScanFailsIff(x, y, lower, upper, threshold, lines, map[]);
  }
}
