/**
 * The REM-cycle engine of FiNAL.py (`draw_rem_graph`): the plot horizon, the
 * sampled REM-intensity curve, the recommended wake instants on 90-minute
 * cycle boundaries and the desired-wake marker.
 *
 * Instants are minutes after today's midnight (real numbers, since an average
 * sleep length need not be a whole number of minutes); elapsed times and the
 * horizon are minutes.
 */
module RemEngine {
  import opened Common

  const CycleMinutes: int := 90       // rem_cycle_duration
  const PeakMinutes: int := 20        // rem_peak_duration
  const StartOffsetMinutes: int := 60 // rem_start_offset
  const MinHorizon: real := 180.0
  const DayMinutes: real := 1440.0

  // ---------------------------------------------------------------------------
  // Plot horizon and desired-wake marker
  // ---------------------------------------------------------------------------

  /**
   * Minutes from `start` to `instant`, after an instant earlier than the start
   * is moved one day later. Non-negative exactly when the instant is at most a
   * day before the start.
   */
  function ElapsedTo(start: real, instant: real): (e: real)
    ensures e >= 0.0 <==> instant >= start - DayMinutes
    ensures start <= instant ==> e == instant - start
  {
    (if instant < start then instant + DayMinutes else instant) - start
  }

  /**
   * `plot_x_max_minutes`: the sleep duration, or one and a half times the
   * longer of the duration and the time to the desired wake, and never less
   * than three hours.
   */
  function Horizon(start: real, duration: real, desired: Option<real>): (h: real)
    ensures h >= MinHorizon && h >= duration
    ensures desired.None? ==> h == MinHorizon || h == duration
    ensures desired.Some? ==>
      && h >= 1.5 * duration
      && h >= 1.5 * ElapsedTo(start, desired.value)
      && (h == MinHorizon || h == 1.5 * duration || h == 1.5 * ElapsedTo(start, desired.value))
  {
    var base := match desired
      case None => duration
      case Some(w) => Max(duration, ElapsedTo(start, w)) * 1.5;
    Max(base, MinHorizon)
  }

  /** The test before the desired-wake line is drawn: its elapsed hours lie on the plot. */
  predicate DesiredMarkerShown(start: real, duration: real, desired: real)
  {
    var hours := ElapsedTo(start, desired) / 60.0;
    0.0 <= hours <= Horizon(start, duration, Some(desired)) / 60.0
  }

  /**
   * The horizon always reaches past the desired wake, so the marker is drawn
   * exactly when the desired instant is no more than a day before the start,
   * which every caller's desired wake (never before the start) satisfies.
   */
  lemma DesiredMarkerShownIff(start: real, duration: real, desired: real)
    ensures DesiredMarkerShown(start, duration, desired) <==> desired >= start - DayMinutes
  {
    var e := ElapsedTo(start, desired);
    var h := Horizon(start, duration, Some(desired));
    if e >= 0.0 {
      assert e <= h;
    }
  }

  // ---------------------------------------------------------------------------
  // The REM-intensity curve
  // ---------------------------------------------------------------------------

  /** `int(duration / 90)`, the number of cycles that get a REM bout (none for a negative duration). */
  function NumCycles(duration: real): (n: nat)
    ensures (n * CycleMinutes) as real <= Max(duration, 0.0) < ((n + 1) * CycleMinutes) as real
  {
    if duration < 0.0 then 0 else (duration / 90.0).Floor
  }

  /** Start of cycle `i`'s REM bout, minutes after falling asleep. */
  function BoutStart(i: nat): real
  {
    (i * CycleMinutes + StartOffsetMinutes) as real
  }

  /** Nominal end of cycle `i`'s bout: each cycle's bout is 10% longer than the first. */
  function BoutEnd(i: nat): (e: real)
    ensures e > BoutStart(i)
  {
    BoutStart(i) + PeakMinutes as real * (1.0 + i as real * 0.1)
  }

  function BoutCenter(i: nat): real
  {
    (BoutStart(i) + BoutEnd(i)) / 2.0
  }

  function BoutHalfWidth(i: nat): (w: real)
    ensures w > 0.0
  {
    (BoutEnd(i) - BoutStart(i)) / 2.0
  }

  /** Peak intensity of cycle `i`'s bout: 10% of the first bout's height more per cycle. */
  function Amplitude(i: nat): (a: real)
    ensures a >= 0.5
  {
    0.5 + i as real * 0.1
  }

  /** Sample time `t` is updated by cycle `i`: inside the bout, cut off where sleep ends. */
  predicate InBout(i: nat, t: real, duration: real)
  {
    BoutStart(i) <= t <= Min(BoutEnd(i), duration)
  }

  /** The parabola of cycle `i`'s bout at `t`, zero at the nominal ends and `Amplitude(i)` at the centre. */
  function BoutValue(i: nat, t: real): real
  {
    var q := (t - BoutCenter(i)) / BoutHalfWidth(i);
    (1.0 - q * q) * Amplitude(i)
  }

  /** The value of the sample at time `t` once cycles `0 .. k-1` have been applied to the zero curve. */
  function CurveAfter(t: real, duration: real, k: nat): real
  {
    if k == 0 then 0.0
    else
      var previous := CurveAfter(t, duration, k - 1);
      if InBout(k - 1, t, duration) then Max(previous, BoutValue(k - 1, t)) else previous
  }

  /** The finished curve at time `t`. */
  function RemIntensity(t: real, duration: real): real
  {
    CurveAfter(t, duration, NumCycles(duration))
  }

  /** Height of the last modelled bout, `0.5 + 0.1 (n - 1)`, or 0 when no cycle fits. */
  function PeakBound(duration: real): real
  {
    var n := NumCycles(duration);
    if n == 0 then 0.0 else Amplitude(n - 1)
  }

  /** The square of a number between -1 and 1 lies between 0 and 1. */
  lemma UnitSquare(q: real)
    requires -1.0 <= q <= 1.0
    ensures 0.0 <= q * q <= 1.0
  {
    if q >= 0.0 {
      assert q * q <= q * 1.0;
    } else {
      assert q * q <= (-q) * 1.0;
    }
  }

  /** Inside its nominal window a bout lies between 0 and its amplitude. */
  lemma BoutValueBounds(i: nat, t: real)
    requires BoutStart(i) <= t <= BoutEnd(i)
    ensures 0.0 <= BoutValue(i, t) <= Amplitude(i)
  {
    var w := BoutHalfWidth(i);
    var d := t - BoutCenter(i);
    var q := d / w;
    assert q * w == d;
    assert -w <= d <= w;
    UnitSquare(q);
    var a := Amplitude(i);
    assert (1.0 - q * q) * a <= 1.0 * a;
  }

  /** Applying more cycles never lowers a sample: every update is a maximum. */
  lemma {:induction false} CurveMonotone(t: real, duration: real, k: nat, k': nat)
    requires k <= k'
    ensures CurveAfter(t, duration, k) <= CurveAfter(t, duration, k')
  {
    if k < k' {
      CurveMonotone(t, duration, k, k' - 1);
    }
  }

  /** Every sample lies between 0 and the height of the last bout applied. */
  lemma {:induction false} CurveBounds(t: real, duration: real, k: nat)
    ensures 0.0 <= CurveAfter(t, duration, k)
    ensures k == 0 ==> CurveAfter(t, duration, k) == 0.0
    ensures k > 0 ==> CurveAfter(t, duration, k) <= Amplitude(k - 1)
  {
    if k > 0 {
      CurveBounds(t, duration, k - 1);
      if InBout(k - 1, t, duration) {
        BoutValueBounds(k - 1, t);
      }
    }
  }

  /** Samples before the first bout can start, or after sleep has ended, stay 0. */
  lemma {:induction false} CurveZeroOutside(t: real, duration: real, k: nat)
    requires t < StartOffsetMinutes as real || t > duration
    ensures CurveAfter(t, duration, k) == 0.0
  {
    if k > 0 {
      CurveZeroOutside(t, duration, k - 1);
      assert !InBout(k - 1, t, duration);
    }
  }

  /**
   * Each bout whose centre lies within the sleep is reached in full: the curve
   * at that centre is at least the bout's amplitude. The centre of bout `i` is
   * at minute 91 i + 70, inside cycle `i` for the first 21 cycles; from cycle
   * 22 on it can lie past the end of sleep and the bout is cut before its peak.
   */
  lemma PeakReached(duration: real, i: nat)
    requires i < NumCycles(duration) && BoutCenter(i) <= duration
    ensures Amplitude(i) <= RemIntensity(BoutCenter(i), duration)
  {
    var c := BoutCenter(i);
    assert InBout(i, c, duration);
    assert BoutValue(i, c) == Amplitude(i);
    CurveMonotone(c, duration, i + 1, NumCycles(duration));
  }

  /**
   * `PeakBound` is the least bound on the curve: for up to 21 cycles the last
   * bout's centre lies within the sleep and attains it. It exceeds the 1.2
   * upper limit of the plot once 9 cycles fit.
   */
  lemma PeakBoundAttained(duration: real)
    requires 1 <= NumCycles(duration) <= 21
    ensures RemIntensity(BoutCenter(NumCycles(duration) - 1), duration) == PeakBound(duration)
  {
    var n := NumCycles(duration);
    assert BoutCenter(n - 1) <= (n * CycleMinutes) as real <= duration;
    PeakReached(duration, n - 1);
    CurveBounds(BoutCenter(n - 1), duration, n);
  }

  // ---------------------------------------------------------------------------
  // Sampling and filling the curve
  // ---------------------------------------------------------------------------

  /** `int(plot_x_max_minutes) * 2`: two samples per whole minute of the horizon. */
  function SampleCount(horizon: real): (n: int)
    requires horizon >= 0.0
    ensures n >= 0 && n % 2 == 0
    ensures n as real <= 2.0 * horizon < (n + 2) as real
  {
    horizon.Floor * 2
  }

  /** `np.linspace(0, horizon, count)[j]`: evenly spaced, first 0, last the horizon. */
  function SamplePoint(horizon: real, count: int, j: int): real
    requires count >= 2
  {
    j as real * horizon / (count - 1) as real
  }

  /** The sample grid runs from 0 to the horizon inclusive. */
  lemma SampleEndpoints(horizon: real, count: int)
    requires count >= 2
    ensures SamplePoint(horizon, count, 0) == 0.0
    ensures SamplePoint(horizon, count, count - 1) == horizon
  {
    var d := (count - 1) as real;
    var p := SamplePoint(horizon, count, count - 1);
    assert p * d == d * horizon;
  }

  /**
   * One pass of the inner loop: every sample inside cycle `i`'s clipped bout
   * is raised to the bout's parabola if that is higher.
   */
  method ApplyCycle(x: array<real>, y: array<real>, duration: real, i: nat)
    requires x != y && x.Length == y.Length
    requires forall j :: 0 <= j < y.Length ==> y[j] == CurveAfter(x[j], duration, i)
    modifies y
    ensures forall j :: 0 <= j < y.Length ==> y[j] == CurveAfter(x[j], duration, i + 1)
  {
    var remStart := BoutStart(i);
    var remEnd := BoutEnd(i);
    var remEndClipped := Min(remEnd, duration);
    for j := 0 to x.Length
      invariant forall k :: 0 <= k < j ==> y[k] == CurveAfter(x[k], duration, i + 1)
      invariant forall k :: j <= k < y.Length ==> y[k] == CurveAfter(x[k], duration, i)
    {
      var t := x[j];
      if remStart <= t <= remEndClipped {
        var center := (remStart + remEnd) / 2.0;
        var width := (remEnd - remStart) / 2.0;
        var intensity := 1.0 - ((t - center) / width) * ((t - center) / width);
        assert intensity * Amplitude(i) == BoutValue(i, t);
        y[j] := Max(y[j], intensity * Amplitude(i));
      }
    }
  }

  /**
   * The nested loop over cycles and samples that fills the zero array `y` in
   * place, one cycle at a time.
   */
  method FillRemCurve(x: array<real>, y: array<real>, duration: real)
    requires x != y && x.Length == y.Length
    requires forall j :: 0 <= j < y.Length ==> y[j] == 0.0
    modifies y
    ensures forall j :: 0 <= j < y.Length ==> y[j] == RemIntensity(x[j], duration)
  {
    var cycles := NumCycles(duration);
    for i := 0 to cycles
      invariant forall j :: 0 <= j < y.Length ==> y[j] == CurveAfter(x[j], duration, i)
    {
      ApplyCycle(x, y, duration, i);
    }
  }

  // ---------------------------------------------------------------------------
  // Recommended wake instants
  // ---------------------------------------------------------------------------

  /**
   * The recommended-wake loop as written: its guard compares the elapsed
   * MINUTES with the horizon in HOURS, so it stops after
   * `floor(horizon / 5400)` cycles; the inner test (hours on both sides)
   * then always passes.
   */
  method RecommendedWakesAsWritten(start: real, horizon: real) returns (wakes: seq<real>)
    ensures horizon >= 0.0 ==> |wakes| == (horizon / 5400.0).Floor
    ensures horizon < 5400.0 ==> wakes == []
    ensures forall k :: 0 <= k < |wakes| ==> wakes[k] == start + 90.0 * (k + 1) as real
  {
    wakes := [];
    var current := start + CycleMinutes as real;
    while current - start <= horizon / 60.0
      invariant current == start + 90.0 * (|wakes| + 1) as real
      invariant forall k :: 0 <= k < |wakes| ==> wakes[k] == start + 90.0 * (k + 1) as real
      invariant 5400.0 * |wakes| as real <= Max(horizon, 0.0)
      decreases (Max(horizon, 0.0) / 5400.0).Floor - |wakes|
    {
      var elapsedHours := (current - start) / 60.0;
      if 0.0 < elapsedHours <= horizon / 60.0 {
        wakes := wakes + [current];
      }
      current := current + CycleMinutes as real;
    }
  }

  /**
   * The recommended-wake loop with the guard in minutes, as the loop's own
   * inner test (hours against hours) intends: every cycle boundary inside the
   * horizon, in order.
   */
  method RecommendedWakes(start: real, horizon: real) returns (wakes: seq<real>)
    ensures horizon >= 0.0 ==> |wakes| == (horizon / 90.0).Floor
    ensures horizon < 90.0 ==> wakes == []
    ensures forall k :: 0 <= k < |wakes| ==> wakes[k] == start + 90.0 * (k + 1) as real
    ensures forall k :: 0 <= k < |wakes| ==> 0.0 < wakes[k] - start <= horizon
  {
    wakes := [];
    var current := start + CycleMinutes as real;
    while current - start <= horizon
      invariant current == start + 90.0 * (|wakes| + 1) as real
      invariant forall k :: 0 <= k < |wakes| ==> wakes[k] == start + 90.0 * (k + 1) as real
      invariant 90.0 * |wakes| as real <= Max(horizon, 0.0)
      decreases (Max(horizon, 0.0) / 90.0).Floor - |wakes|
    {
      var elapsedHours := (current - start) / 60.0;
      if 0.0 < elapsedHours <= horizon / 60.0 {
        wakes := wakes + [current];
      }
      current := current + CycleMinutes as real;
    }
  }

  // ---------------------------------------------------------------------------
  // draw_rem_graph
  // ---------------------------------------------------------------------------

  /**
   * What the graph shows: the sampled curve, the red wake lines and whether
   * the green line is drawn. `shownWakes` are the wake instants the loop as
   * written lists; `intendedWakes` are those of the loop with minutes on both
   * sides of its guard.
   */
  datatype RemGraph = RemGraph(
    horizon: real,
    times: seq<real>,
    intensity: seq<real>,
    shownWakes: seq<real>,
    intendedWakes: seq<real>,
    desiredMarker: bool
  )

  /**
   * `draw_rem_graph` without the drawing: horizon, samples, curve, recommended
   * wakes (from both loops) and the desired-wake marker test.
   */
  method DrawRemGraph(start: real, duration: real, desired: Option<real>) returns (g: RemGraph)
    ensures g.horizon == Horizon(start, duration, desired)
    ensures |g.times| == |g.intensity| == SampleCount(g.horizon) >= 360
    ensures g.times[0] == 0.0 && g.times[|g.times| - 1] == g.horizon
    ensures forall j :: 0 <= j < |g.times| ==> g.times[j] == SamplePoint(g.horizon, |g.times|, j)
    ensures forall j :: 0 <= j < |g.intensity| ==> g.intensity[j] == RemIntensity(g.times[j], duration)
    ensures forall j :: 0 <= j < |g.intensity| ==> 0.0 <= g.intensity[j] <= PeakBound(duration)
    ensures forall j :: 0 <= j < |g.intensity| && (g.times[j] < 60.0 || g.times[j] > duration) ==>
      g.intensity[j] == 0.0
    ensures |g.shownWakes| == (g.horizon / 5400.0).Floor
    ensures g.horizon < 5400.0 ==> g.shownWakes == []
    ensures forall k :: 0 <= k < |g.shownWakes| ==> g.shownWakes[k] == start + 90.0 * (k + 1) as real
    ensures |g.intendedWakes| == (g.horizon / 90.0).Floor >= 2
    ensures forall k :: 0 <= k < |g.intendedWakes| ==> g.intendedWakes[k] == start + 90.0 * (k + 1) as real
    ensures g.desiredMarker <==> desired.Some? && desired.value >= start - DayMinutes
  {
    var horizon := Horizon(start, duration, desired);
    var n := SampleCount(horizon);
    var x := new real[n](j => SamplePoint(horizon, n, j));
    var y := new real[n](_ => 0.0);
    FillRemCurve(x, y, duration);
    SampleEndpoints(horizon, n);
    forall j | 0 <= j < n
      ensures 0.0 <= y[j] <= PeakBound(duration)
      ensures x[j] < 60.0 || x[j] > duration ==> y[j] == 0.0
    {
      CurveBounds(x[j], duration, NumCycles(duration));
      if x[j] < 60.0 || x[j] > duration {
        CurveZeroOutside(x[j], duration, NumCycles(duration));
      }
    }
    var shownWakes := RecommendedWakesAsWritten(start, horizon);
    var intendedWakes := RecommendedWakes(start, horizon);
    var marker := false;
    if desired.Some? {
      marker := DesiredMarkerShown(start, duration, desired.value);
      DesiredMarkerShownIff(start, duration, desired.value);
    }
    g := RemGraph(horizon, x[..], y[..], shownWakes, intendedWakes, marker);
  }
}
