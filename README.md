# Sleep-rhythm and diet engines of FiNAL.py, in Dafny

FiNAL.py is a small Streamlit application with two pages of arithmetic
behind its forms. This project models and proves that arithmetic.

- **Sleep rhythm.** A sleep window is a start and a wake time of day. A wake
  time earlier than the start is moved to the next day
  (`SleepWindow.WakeInstant`, `SleepWindow.Duration`). A short history of
  windows is averaged over its valid entries (`SleepWindow.AverageHistory`).
  The REM engine (`RemEngine`, the script's `draw_rem_graph`) does four
  things:
  - computes the plot horizon;
  - samples it with two points per minute;
  - fills the REM-intensity curve in place in an array, one parabolic bout
    per 90-minute cycle, with bouts combined by maximum;
  - lists the recommended wake instants on cycle boundaries and decides
    whether the desired-wake line is drawn.

  `SleepResults` models the three result branches that feed the engine.
- **Diet.** `CalorieEngine` models the following:
  - the days-left clamp;
  - Harris-Benedict BMR with age fixed at 20;
  - TDEE;
  - the daily change at 7700 kcal per kg;
  - the loop that moves the goal date back a week at a time until the
    target intake is safe or five years have passed;
  - the 50/33/17 meal split.

  `DietPlan` assembles these into the figures the results page shows and the
  day-by-day table.

Times of day are whole minutes after midnight. Instants are minutes after
today's midnight, so tomorrow's 07:00 is 1860. Energies, masses and the
sampled curve are Dafny `real`s. Goal dates are whole days after today.

The relaxation loop and the REM curve each have a specification function:
`CalorieEngine.Relaxed` and `RemEngine.CurveAfter`/`RemEngine.RemIntensity`.
The imperative loops are proved equal to these functions, and the functions'
properties are proved as separate lemmas.

Three places where the code's own output departs from what the page
suggests. The model follows the code:

- The plot's y-range is fixed at [0, 1.2] (FiNAL.py:117), but the bout
  heights grow by 0.1 per cycle. For n cycles, with n at most 21, the
  curve's least upper bound is `0.5 + 0.1 (n - 1)`
  (`RemEngine.PeakBoundAttained`). From 9 cycles (13.5 hours) on, that is
  above 1.2.
- The recommended-wake loop's inner test (FiNAL.py:127) accepts every cycle
  boundary up to the horizon, but its guard (FiNAL.py:124) compares minutes
  with hours. The loop as written therefore lists none for any window the
  pages can produce (Findings, row 1). Each graph carries both lists:
  `shownWakes`, what the page lists, and `intendedWakes`, every boundary the
  inner test accepts. The page's hint at FiNAL.py:175
  (23:00 → 05:30 / 07:00 / 08:30) gives times 90 minutes apart. They are
  30 minutes off the boundaries of a 23:00 start (05:00, 06:30, 08:00), so
  the hint is not the intended list.
- The relaxation loop restarts from the unclamped goal date
  (FiNAL.py:333, 350). It does not start from the clamped 30 days.
  `DietPlan.PlanDiet` models it that way.

## Model

| member | source | states |
|---|---|---|
| SleepWindow.WakeInstant | FiNAL.py:177-181 | the normalised wake instant is within a day after the start and has the entered time of day |
| SleepWindow.Duration | FiNAL.py:197-204 | the duration lies in [0, 1440), is positive exactly when the two times differ, and start plus duration gives the wake time of day |
| SleepWindow.SplitMinutes | FiNAL.py:211-218 | the floor-divided hours and the minutes remainder name the minute that contains the value, with the minutes in [0, 60) |
| SleepWindow.AverageHistory | FiNAL.py:192-219 | no average exactly when no window has a positive duration; otherwise the count and both means of the valid windows, a mean duration in [1, 1440) and a mean start in [0, 1440), and a start clock that `time(h, m)` accepts |
| RemEngine.ElapsedTo | FiNAL.py:77-81 | the elapsed minutes to an instant, moved forward a day when it lies before the start, are non-negative exactly when the instant is at most a day before the start |
| RemEngine.Horizon | FiNAL.py:76-84 | the horizon is at least 180 and at least the duration; with a desired wake it is at least 1.5 times the duration and 1.5 times the elapsed time, and it equals one of the candidates |
| RemEngine.DesiredMarkerShownIff | FiNAL.py:138-147 | the desired-wake line is drawn exactly when the desired instant is at most a day before the start |
| RemEngine.NumCycles | FiNAL.py:93 | the number of bouts is the number of whole 90-minute cycles in the duration |
| RemEngine.BoutValueBounds | FiNAL.py:103-105 | inside its nominal window a bout's parabola lies between 0 and its amplitude 0.5 + 0.1 i |
| RemEngine.CurveMonotone | FiNAL.py:95-106 | applying more cycles never lowers a sample |
| RemEngine.CurveBounds | FiNAL.py:95-106 | every sample is non-negative, is 0 before any cycle, and is at most the last applied bout's amplitude |
| RemEngine.CurveZeroOutside | FiNAL.py:96-102 | samples before minute 60 or after the end of sleep stay 0 |
| RemEngine.PeakReached | FiNAL.py:95-106 | each bout whose centre falls within the sleep reaches its full amplitude in the finished curve |
| RemEngine.PeakBoundAttained | FiNAL.py:95-106 | for 1 to 21 cycles, the curve's maximum is exactly the last bout's amplitude, attained at that bout's centre |
| RemEngine.SampleCount | FiNAL.py:86 | the sample count is even, and is twice the horizon cut to whole minutes |
| RemEngine.SampleEndpoints | FiNAL.py:86 | the evenly spaced grid starts at 0 and ends at the horizon |
| RemEngine.ApplyCycle | FiNAL.py:99-106 | one pass of the inner loop turns the curve after i cycles into the curve after i + 1 cycles, sample by sample |
| RemEngine.FillRemCurve | FiNAL.py:87-106 | the nested loop fills the zero array so that every sample equals the REM intensity at its time |
| RemEngine.RecommendedWakesAsWritten | FiNAL.py:119-131 | the loop as written yields floor(horizon / 5400) wake instants, so none below a 5400-minute horizon; the k-th is the start plus 90 (k + 1) minutes |
| RemEngine.RecommendedWakes | FiNAL.py:119-131 | with minutes on both sides of the guard, the loop yields every cycle boundary in the horizon, floor(horizon / 90) of them, in order |
| RemEngine.DrawRemGraph | FiNAL.py:66-147 | the horizon; at least 360 samples from 0 to the horizon; every sample equal to the REM intensity, in [0, PeakBound] and 0 outside minutes 60 to the duration; the wake instants the page lists (floor(horizon / 5400), none below 5400 minutes) and the intended ones (floor(horizon / 90), at least two), both at start + 90 (k + 1); the marker decision |
| SleepResults.WindowResult | FiNAL.py:177-189 | a graph exactly when start and wake differ, with a horizon of max(1.5 duration, 180), the 2·int(horizon) evenly spaced sample times from 0 to the horizon, every sample the REM intensity for the window's duration and within [0, PeakBound], the desired line drawn, no wake time listed, and floor(horizon / 90) intended wakes at start + 90 (k + 1) |
| SleepResults.ContinueResult | FiNAL.py:210-227 | a graph exactly when some window is valid; the average is the history's count and mean duration and mean start over its valid windows, with the duration clock as printed and a start clock that `time(h, m)` accepts, each naming the minute that contains its mean; the graph starts at the mean start cut to whole minutes, with a horizon of max(1.5 mean duration, 180), the 2·int(horizon) evenly spaced sample times from 0 to the horizon, every sample the REM intensity for the mean duration, the desired line drawn, no wake time listed, and floor(horizon / 90) intended wakes from that start |
| SleepResults.CallerHorizonBelowAsWrittenGuard | FiNAL.py:124 | for every duration the pages can pass, the horizon is under 2160 minutes, so the as-written loop yields no wake time |
| SleepResults.DefaultWindowResult | FiNAL.py:40-43 | for the default 23:00 to 07:00 window, the horizon is 720 minutes and the page lists no wake time; the intended loop lists eight, from 00:30 (1470) to 11:00 (2100) |
| CalorieEngine.ClampDays | FiNAL.py:312-314 | a goal date today or in the past becomes 30 days; otherwise it is kept |
| CalorieEngine.Bmr | FiNAL.py:317-320 | within the form's ranges (weight at least 30 kg, height at least 100 cm) the BMR is at least 841 kcal |
| CalorieEngine.ActivityFactor | FiNAL.py:322 | the activity factor lies between 1.2 and 1.9 |
| CalorieEngine.Tdee | FiNAL.py:323 | for a non-negative BMR, TDEE lies between 1.2 and 1.9 times the BMR |
| CalorieEngine.DailyChange | FiNAL.py:325 | the daily change times the days equals the energy of the weight difference, and it is non-negative (a deficit) exactly when the weight difference is non-negative |
| CalorieEngine.GainTargetShrinks | FiNAL.py:339-340 | when gaining, a later goal date gives a strictly lower target |
| CalorieEngine.LossTargetAtMostTdee | FiNAL.py:356-357 | when losing or keeping weight, the target never exceeds TDEE |
| CalorieEngine.NextDays | FiNAL.py:336-338 | one step of the loop lands on a positive day count at least a week later |
| CalorieEngine.ExtendGoalDate | FiNAL.py:333-342 | the loop ends on the day count given by `Relaxed`, with the daily change and target recomputed for it |
| CalorieEngine.RelaxedBounds | FiNAL.py:335-342 | the adjusted day count is positive, at least a week later, and at most a week past the larger of the start and the five-year cap |
| CalorieEngine.RelaxedExit | FiNAL.py:352-359 | on exit the target meets the bound or the count is past the five-year cap |
| CalorieEngine.RelaxedWholeWeeks | FiNAL.py:353-355 | from a goal date not a week or more in the past, the date moves in whole weeks |
| CalorieEngine.RelaxedSkipsOnlyUnsafeWeeks | FiNAL.py:352-359 | every week passed over was within the cap and below the bound, so the result is the first safe or over-cap week |
| CalorieEngine.GainRelaxationRunsToCap | FiNAL.py:331-342 | when gaining, relaxation that starts after today never reaches the 200 kcal surplus and always runs past the cap |
| CalorieEngine.FloorAboveTdeeRunsToCap | FiNAL.py:348-359 | when losing with TDEE below the floor, relaxation always runs past the cap |
| CalorieEngine.MealSplit | FiNAL.py:365-367 | the three meals add up to the target, and for a non-negative target dinner <= lunch <= breakfast |
| DietPlan.IntendedChange | FiNAL.py:374-377 | the intended daily goal is non-negative, and it times the days is the energy of the weight difference |
| DietPlan.ShownChange | FiNAL.py:331-377 | the figure the page shows is non-negative; it is 0 exactly when the weight difference is 0 or a gain needed no relaxation; otherwise, times the days, it is the energy of the weight difference |
| DietPlan.ShownChangeDiscrepancy | FiNAL.py:331-363 | the page's figure differs from the intended one exactly when gaining without relaxation, and then it is 0 |
| DietPlan.GainWithoutRelaxationShowsZero | FiNAL.py:331-346 | gaining 10 kg in 30 days needs no relaxation, and the page shows a 0 kcal goal instead of 77000 / 30 |
| DietPlan.BuildDailyPlan | FiNAL.py:390-407 | one identical row per day from today to the goal date inclusive, and no table when the days left are not positive |
| DietPlan.PlanDiet | FiNAL.py:308-402 | BMR, TDEE, change and target as defined; the clamp notice exactly when the goal date is not after today; the days unchanged when the first target is safe, and otherwise the relaxed count with an extension of at least a week; a target that is safe unless the cap is passed; the meals; the daily goal the page shows (as written, relaxed exactly when the first target is below the bound) and the intended one; the table |
| DietPlan.DefaultProfileNeedsOneMoreWeek | FiNAL.py:50-61 | for the default profile, BMR is 1670.5 and TDEE 2589.275; the 30-day target is below the 1500 kcal floor, and the goal moves to 37 days |
| DietPlan.GainPlanRelaxationRunsToCap | FiNAL.py:331-346 | on the results page, a gain goal with a goal date after today that enters relaxation always ends past the five-year cap, still below the surplus |

## Left out

- Streamlit layout, session state, buttons and reruns: page state and navigation, not computation. The results functions take the stored form values as parameters.
- Plotting: the matplotlib figure, axes, labels, fonts, colours and legend. The model keeps the values that are plotted: the horizon, the samples, the curve, the wake instants and whether the desired line is drawn.
- `date.today()` and `datetime.combine`: no member reads a clock. Today is the fixed origin: day 0 for dates and minute 0 for instants, so a goal date is a day count after today (`DietPlan.Profile.goalDay`).
- Message text, `strftime` formatting and `:.0f` rounding: the model returns the numbers shown, not the strings. The two notices are the `clamped` and `extendedBy` fields of `DietPlan.CaloriePlan`.
- Floating-point rounding: all arithmetic is on exact reals. `np.linspace` is modelled by its defining formula j·H/(N−1), not by NumPy's rounding.
- Seconds of a time of day: the time pickers give whole minutes.
- The form's input ranges (height 100-250 cm, weights 30-200 kg, goal date not before today) are not preconditions. The model accepts any values, since the results code does not check them.
- SleepWindow.AverageHistory: takes a history of any length. The page always passes three windows.
- RemEngine.PeakBoundAttained: limited to 1 to 21 cycles because the result is false beyond that. Bout i's centre is at minute 91 i + 70, which passes the end of cycle i from i = 21 on. With 22 cycles and 1980 minutes of sleep, the last bout is cut before its centre, and the maximum is not attained. A sleep under a day has at most 15 cycles.

## Findings

| source | as written | input that shows it | evidently intended | confidence | as-written member | corrected member |
|---|---|---|---|---|---|---|
| FiNAL.py:124 | the loop guard compares the elapsed minutes with the horizon in hours, so the loop stops after floor(horizon / 5400) cycles; every horizon the pages produce is under 2160 minutes (`SleepResults.CallerHorizonBelowAsWrittenGuard`) | the default window 23:00 to 07:00: the horizon is 720 minutes and no wake time is listed (`SleepResults.DefaultWindowResult`) | minutes on both sides, as in the inner test at line 127: eight wake times, 00:30 to 11:00 | high, not executed | RemEngine.RecommendedWakesAsWritten | RemEngine.RecommendedWakes |
| FiNAL.py:346 | when gaining, the displayed daily goal is set only inside the relaxation block, so without relaxation it keeps its initial 0 from line 9 (`DietPlan.ShownChange`) | 60 kg to 70 kg, male, 170 cm, moderate activity, 30 days: no relaxation, and a 0 kcal gain goal is shown (`DietPlan.GainWithoutRelaxationShowsZero`) | the size of the daily change, about 2567 kcal, as in the losing branch at line 363 | high, not executed | DietPlan.ShownChange | DietPlan.IntendedChange |
