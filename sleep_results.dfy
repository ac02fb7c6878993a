/**
 * The result branches of the sleep page of FiNAL.py: a single window
 * ("create rhythm" and "draw REM graph", identical code) and the average of
 * the recent history ("continue rhythm"), each feeding the REM engine.
 */
module SleepResults {
  import opened Common
  import opened SleepWindow
  import opened RemEngine

  /**
   * One window: normalise across midnight; a positive duration is graphed with
   * the wake time as the desired wake, anything else (`None`) is the "start
   * cannot be after wake" warning. The page lists no recommended wake time;
   * the loop with minutes on both sides would list every cycle boundary.
   */
  method WindowResult(start: MinuteOfDay, wake: MinuteOfDay) returns (r: Option<RemGraph>)
    ensures r.Some? <==> start != wake
    ensures r.Some? ==>
      var d := Duration(start, wake) as real;
      && r.value.horizon == Max(1.5 * d, MinHorizon)
      && |r.value.times| == SampleCount(r.value.horizon)
      && (forall j :: 0 <= j < |r.value.times| ==>
            r.value.times[j] == SamplePoint(r.value.horizon, |r.value.times|, j))
      && r.value.desiredMarker
      && r.value.shownWakes == []
      && |r.value.intendedWakes| == (r.value.horizon / 90.0).Floor
      && (forall k :: 0 <= k < |r.value.intendedWakes| ==>
            r.value.intendedWakes[k] == start as real + 90.0 * (k + 1) as real)
      && |r.value.times| == |r.value.intensity|
      && (forall j :: 0 <= j < |r.value.intensity| ==> r.value.intensity[j] == RemIntensity(r.value.times[j], d))
      && (forall j :: 0 <= j < |r.value.intensity| ==> 0.0 <= r.value.intensity[j] <= PeakBound(d))
  {
    var startInstant := start as real;
    var wakeInstant := WakeInstant(start, wake) as real;
    var total := wakeInstant - startInstant;
    if total > 0.0 {
      var g := DrawRemGraph(startInstant, total, Some(wakeInstant));
      CallerHorizonBelowAsWrittenGuard(startInstant, total);
      r := Some(g);
    } else {
      r := None;
    }
  }

  /**
   * The history: average the valid windows; with at least one, graph the mean
   * duration from the mean start cut to whole minutes, with the desired wake
   * that mean duration later. As for one window, the page lists no
   * recommended wake time.
   */
  method ContinueResult(history: seq<Window>) returns (avg: Option<SleepAverage>, r: Option<RemGraph>)
    ensures avg.None? <==> ValidCount(history) == 0
    ensures r.Some? <==> avg.Some?
    ensures avg.Some? ==>
      var a := avg.value;
      var start := (a.startClock.hour * 60 + a.startClock.minute) as real;
      && a.validCount == ValidCount(history)
      && a.duration == TotalDuration(history) as real / a.validCount as real
      && a.start == TotalStart(history) as real / a.validCount as real
      && Splits(a.duration, a.durationClock)
      && Splits(a.start, a.startClock)
      && 0 <= a.startClock.hour < 24
      && start <= a.start < start + 1.0
      && r.value.horizon == Max(1.5 * a.duration, MinHorizon)
      && |r.value.times| == SampleCount(r.value.horizon)
      && (forall j :: 0 <= j < |r.value.times| ==>
            r.value.times[j] == SamplePoint(r.value.horizon, |r.value.times|, j))
      && r.value.desiredMarker
      && r.value.shownWakes == []
      && |r.value.intendedWakes| == (r.value.horizon / 90.0).Floor
      && (forall k :: 0 <= k < |r.value.intendedWakes| ==> r.value.intendedWakes[k] == start + 90.0 * (k + 1) as real)
      && |r.value.times| == |r.value.intensity|
      && (forall j :: 0 <= j < |r.value.intensity| ==>
            r.value.intensity[j] == RemIntensity(r.value.times[j], a.duration))
  {
    avg := AverageHistory(history);
    if avg.Some? {
      var a := avg.value;
      var start := (a.startClock.hour * 60 + a.startClock.minute) as real;
      var g := DrawRemGraph(start, a.duration, Some(start + a.duration));
      CallerHorizonBelowAsWrittenGuard(start, a.duration);
      r := Some(g);
    } else {
      r := None;
    }
  }

  /**
   * Every caller passes a duration under a day with the desired wake that
   * duration after the start, so the horizon stays under 5400 minutes and the
   * recommended-wake loop as written (`RecommendedWakesAsWritten`) returns
   * nothing: the "no cycle-aligned wake time" message is always shown.
   */
  lemma CallerHorizonBelowAsWrittenGuard(start: real, duration: real)
    requires 0.0 < duration < 1440.0
    ensures Horizon(start, duration, Some(start + duration)) < 2160.0
    ensures (Horizon(start, duration, Some(start + duration)) / 5400.0).Floor == 0
  {
    var h := Horizon(start, duration, Some(start + duration));
    assert h == Max(1.5 * duration, MinHorizon);
  }

  /**
   * The default window, asleep at 23:00 and awake at 07:00: 480 minutes, a
   * 720-minute horizon, no wake time on the page, against eight (00:30 to
   * 11:00 the next day) from the loop that compares minutes with minutes.
   */
  method DefaultWindowResult() returns (r: Option<RemGraph>)
    ensures r.Some?
    ensures r.value.horizon == 720.0
    ensures r.value.shownWakes == []
    ensures |r.value.intendedWakes| == 8
    ensures r.value.intendedWakes[0] == 1470.0 && r.value.intendedWakes[7] == 2100.0
  {
    assert Duration(1380, 420) == 480;
    r := WindowResult(1380, 420);
    assert (720.0 / 90.0).Floor == 8;
  }
}
