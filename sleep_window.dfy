/**
 * Sleep windows entered as two times of day, their midnight-rollover
 * normalisation, and the average over a short history of windows
 * ("continue the rhythm" page, FiNAL.py).
 *
 * A time of day is a whole number of minutes after midnight; an instant is a
 * number of minutes after today's midnight, so tomorrow's 07:00 is 1860.
 */
module SleepWindow {
  import opened Common

  const MinutesPerDay: int := 1440

  /** A time of day, `time(h, m)` in the source, as minutes after midnight. */
  type MinuteOfDay = m: int | 0 <= m < 1440

  /** One night: the time of day the user fell asleep and the time of day they woke. */
  datatype Window = Window(start: MinuteOfDay, wake: MinuteOfDay)

  /**
   * The wake instant once both times are placed on today and a wake time
   * earlier than the start is moved to tomorrow.
   */
  function WakeInstant(start: MinuteOfDay, wake: MinuteOfDay): (w: int)
    ensures start <= w < start + MinutesPerDay
    ensures w % MinutesPerDay == wake
  {
    if wake < start then wake + MinutesPerDay else wake
  }

  /** Minutes slept in a window; positive exactly when the two times differ. */
  function Duration(start: MinuteOfDay, wake: MinuteOfDay): (d: int)
    ensures 0 <= d < MinutesPerDay
    ensures d > 0 <==> start != wake
    ensures (start + d) % MinutesPerDay == wake
  {
    WakeInstant(start, wake) - start
  }

  /** A window counts towards the average only when its duration is positive. */
  predicate IsValid(w: Window)
  {
    Duration(w.start, w.wake) > 0
  }

  /** Number of valid windows in a history. */
  function ValidCount(history: seq<Window>): (n: nat)
    ensures n <= |history|
  {
    if history == [] then 0
    else ValidCount(history[..|history| - 1]) + (if IsValid(history[|history| - 1]) then 1 else 0)
  }

  /** Sum of the durations of the valid windows. */
  function TotalDuration(history: seq<Window>): int
  {
    if history == [] then 0
    else
      var last := history[|history| - 1];
      TotalDuration(history[..|history| - 1]) + (if IsValid(last) then Duration(last.start, last.wake) else 0)
  }

  /** Sum of the start times of day of the valid windows. */
  function TotalStart(history: seq<Window>): int
  {
    if history == [] then 0
    else
      var last := history[|history| - 1];
      TotalStart(history[..|history| - 1]) + (if IsValid(last) then last.start else 0)
  }

  /** Whole hours and whole minutes, as printed and as passed to `time(h, m)`. */
  datatype Clock = Clock(hour: int, minute: int)

  /** `c` is `v` minutes cut to whole minutes: `v` lies in the minute that `c` names. */
  predicate Splits(v: real, c: Clock)
  {
    0 <= c.minute < 60 &&
    (c.hour * 60 + c.minute) as real <= v < (c.hour * 60 + c.minute + 1) as real
  }

  /** `int(v // 60)` and `int(v % 60)` for a non-negative number of minutes. */
  function SplitMinutes(v: real): (c: Clock)
    requires v >= 0.0
    ensures c.hour >= 0 && Splits(v, c)
  {
    var hour := (v / 60.0).Floor;
    Clock(hour, (v - 60.0 * hour as real).Floor)
  }

  /** What the "continue the rhythm" page computes from the history. */
  datatype SleepAverage = SleepAverage(
    validCount: nat,
    duration: real,       // mean minutes slept
    durationClock: Clock, // shown as "h hours m minutes"
    start: real,          // mean start, minutes after midnight
    startClock: Clock     // the `time(h, m)` the graph starts from
  )

  /** A mean of `count` integers each between `lo` and `hi` lies between them too. */
  lemma MeanBounds(total: int, count: int, lo: int, hi: int)
    requires count > 0 && lo * count <= total <= hi * count
    ensures lo as real <= total as real / count as real <= hi as real
  {
    var c := count as real;
    var m := total as real / c;
    assert m * c == total as real;
    assert (lo * count) as real == lo as real * c;
    assert (hi * count) as real == hi as real * c;
  }

  /**
   * The loop over the history: accumulates the durations and start times of
   * the valid windows, then averages them. `None` is the "please enter sleep
   * data" warning, given exactly when no window is valid.
   */
  method AverageHistory(history: seq<Window>) returns (r: Option<SleepAverage>)
    ensures r.None? <==> ValidCount(history) == 0
    ensures r.Some? ==>
      var a := r.value;
      && a.validCount == ValidCount(history)
      && a.duration == TotalDuration(history) as real / a.validCount as real
      && a.start == TotalStart(history) as real / a.validCount as real
      && 1.0 <= a.duration < 1440.0
      && 0.0 <= a.start < 1440.0
      && Splits(a.duration, a.durationClock)
      && Splits(a.start, a.startClock)
      && 0 <= a.startClock.hour < 24
  {
    var totalMinutes := 0;
    var totalStartMinutes := 0;
    var validEntries := 0;
    for i := 0 to |history|
      invariant validEntries == ValidCount(history[..i])
      invariant totalMinutes == TotalDuration(history[..i])
      invariant totalStartMinutes == TotalStart(history[..i])
      invariant validEntries <= totalMinutes <= 1439 * validEntries
      invariant 0 <= totalStartMinutes <= 1439 * validEntries
    {
      assert history[..i + 1][..i] == history[..i];
      var w := history[i];
      var diff := Duration(w.start, w.wake);
      if diff > 0 {
        totalMinutes := totalMinutes + diff;
        totalStartMinutes := totalStartMinutes + w.start;
        validEntries := validEntries + 1;
      }
    }
    assert history[..|history|] == history;
    if validEntries > 0 {
      var avgMinutes := totalMinutes as real / validEntries as real;
      MeanBounds(totalMinutes, validEntries, 1, 1439);
      var avgStart := totalStartMinutes as real / validEntries as real;
      MeanBounds(totalStartMinutes, validEntries, 0, 1439);
      var startClock := SplitMinutes(avgStart);
      r := Some(SleepAverage(validEntries, avgMinutes, SplitMinutes(avgMinutes), avgStart, startClock));
    } else {
      r := None;
    }
  }
}
