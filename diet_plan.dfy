/**
 * The diet results page of FiNAL.py: from the stored profile to the figures
 * it shows (days left, daily change, target intake, meals) and the
 * day-by-day plan table.
 */
module DietPlan {
  import opened CalorieEngine

  /** The form values the results page reads; `goalDay` is the goal date as days after today. */
  datatype Profile = Profile(
    height: real,
    weight: real,
    goalWeight: real,
    gender: Gender,
    activity: Activity,
    goalDay: int
  )

  /** Positive when the goal is to lose weight, negative when it is to gain. */
  function WeightDiff(p: Profile): real
  {
    p.weight - p.goalWeight
  }

  /** The bound the relaxation loop aims for: a 200 kcal surplus when gaining, the floor otherwise. */
  function SafeBound(p: Profile, tdee: real): real
  {
    if WeightDiff(p) < 0.0 then tdee + GainSurplus else MinHealthyKcal(p.gender)
  }

  /**
   * The daily figure shown as the gain or loss goal, as evidently intended:
   * the size of the daily change, whatever the branch.
   */
  function IntendedChange(weightDiff: real, days: int): (r: real)
    requires days > 0
    ensures r >= 0.0
    ensures r * days as real == (if weightDiff < 0.0 then -weightDiff else weightDiff) * KcalPerKg
  {
    var change := DailyChange(weightDiff, days);
    if weightDiff < 0.0 then -change else change
  }

  /**
   * `kcal_per_day_display` as written: in the gaining branch it is set only
   * inside the relaxation block, so without relaxation it keeps its initial 0.
   */
  function ShownChange(weightDiff: real, days: int, relaxed: bool): (r: real)
    requires days > 0
    ensures r >= 0.0
    ensures r == 0.0 <==> weightDiff == 0.0 || (weightDiff < 0.0 && !relaxed)
    ensures r != 0.0 ==> r * days as real == (if weightDiff < 0.0 then -weightDiff else weightDiff) * KcalPerKg
  {
    var change := DailyChange(weightDiff, days);
    if weightDiff < 0.0 then (if relaxed then -change else 0.0) else change
  }

  /** The two agree except on a gain that needed no relaxation, where the page shows 0. */
  lemma ShownChangeDiscrepancy(weightDiff: real, days: int, relaxed: bool)
    requires days > 0
    ensures ShownChange(weightDiff, days, relaxed) != IntendedChange(weightDiff, days)
        <==> weightDiff < 0.0 && !relaxed
    ensures weightDiff < 0.0 && !relaxed ==>
        ShownChange(weightDiff, days, relaxed) == 0.0 && IntendedChange(weightDiff, days) > 0.0
  {
    var change := DailyChange(weightDiff, days);
    assert change * days as real == weightDiff * KcalPerKg;
    if weightDiff < 0.0 {
      assert change != 0.0;
    }
  }

  /**
   * A reachable instance: gaining 10 kg (60 kg to 70 kg, male, 170 cm,
   * moderate) in 30 days needs about 2567 kcal extra a day, far above the
   * 200 kcal surplus, so no relaxation happens and the page shows a 0 kcal goal.
   */
  lemma GainWithoutRelaxationShowsZero()
    ensures var tdee := Tdee(Bmr(Male, 60.0, 170.0), Moderate);
      && TargetFor(tdee, -10.0, 30) >= tdee + GainSurplus
      && ShownChange(-10.0, 30, false) == 0.0
      && IntendedChange(-10.0, 30) * 30.0 == 77000.0
  {
  }

  /** One row of the day-by-day table. */
  datatype PlanRow = PlanRow(day: int, total: real, breakfast: real, lunch: real, dinner: real)

  /**
   * The table loop: one row per day from today to `daysLeft` days from today,
   * inclusive, each with the same figures; no table when `daysLeft` is not
   * positive.
   */
  method BuildDailyPlan(daysLeft: int, target: real, meals: Meals) returns (rows: seq<PlanRow>)
    ensures |rows| == if daysLeft > 0 then daysLeft + 1 else 0
    ensures forall k :: 0 <= k < |rows| ==>
      rows[k] == PlanRow(k, target, meals.breakfast, meals.lunch, meals.dinner)
  {
    rows := [];
    if daysLeft > 0 {
      var current := 0;
      var goal := daysLeft;
      while current <= goal
        invariant 0 <= current <= goal + 1
        invariant |rows| == current
        invariant forall k :: 0 <= k < |rows| ==>
          rows[k] == PlanRow(k, target, meals.breakfast, meals.lunch, meals.dinner)
      {
        rows := rows + [PlanRow(current, target, meals.breakfast, meals.lunch, meals.dinner)];
        current := current + 1;
      }
    }
  }

  /** Everything the results page shows. */
  datatype CaloriePlan = CaloriePlan(
    bmr: real,
    tdee: real,
    dailyChange: real,
    target: real,
    meals: Meals,
    daysLeft: int,
    clamped: bool,        // the "goal date was today or past" notice
    extendedBy: int,      // the "goal date extended by N days" notice, 0 when absent
    intendedChange: real, // the daily gain or loss goal, as intended
    shownChange: real     // the daily gain or loss goal the page shows
  )

  /**
   * The diet results branch: clamp, BMR and TDEE, daily change and target,
   * the relaxation loop of the gaining or losing branch, the daily goal both
   * as the page shows it and as intended, the meal split and the table.
   */
  method PlanDiet(p: Profile) returns (plan: CaloriePlan, rows: seq<PlanRow>)
    ensures plan.bmr == Bmr(p.gender, p.weight, p.height)
    ensures plan.tdee == Tdee(plan.bmr, p.activity)
    ensures plan.clamped <==> p.goalDay <= 0
    ensures plan.daysLeft > 0
    ensures plan.dailyChange == DailyChange(WeightDiff(p), plan.daysLeft)
    ensures plan.target == plan.tdee - plan.dailyChange
    ensures var first := TargetFor(plan.tdee, WeightDiff(p), ClampDays(p.goalDay));
      && (first >= SafeBound(p, plan.tdee) ==> plan.daysLeft == ClampDays(p.goalDay) && plan.extendedBy == 0)
      && (first < SafeBound(p, plan.tdee) ==>
            && plan.daysLeft == Relaxed(p.goalDay, WeightDiff(p), plan.tdee, SafeBound(p, plan.tdee))
            && plan.extendedBy == plan.daysLeft - p.goalDay >= StepDays)
    ensures plan.target >= SafeBound(p, plan.tdee) || plan.daysLeft > CapDays
    ensures plan.meals == MealSplit(plan.target)
    ensures plan.intendedChange == IntendedChange(WeightDiff(p), plan.daysLeft)
    ensures plan.shownChange ==
      ShownChange(WeightDiff(p), plan.daysLeft,
        TargetFor(plan.tdee, WeightDiff(p), ClampDays(p.goalDay)) < SafeBound(p, plan.tdee))
    ensures |rows| == plan.daysLeft + 1
    ensures forall k :: 0 <= k < |rows| ==>
      rows[k] == PlanRow(k, plan.target, plan.meals.breakfast, plan.meals.lunch, plan.meals.dinner)
  {
    var daysLeft := p.goalDay;
    var weightDiff := p.weight - p.goalWeight;
    var clamped := false;
    if daysLeft <= 0 {
      daysLeft := DefaultDays;
      clamped := true;
    }
    var bmr := Bmr(p.gender, p.weight, p.height);
    var tdee := Tdee(bmr, p.activity);
    var change := DailyChange(weightDiff, daysLeft);
    var target := tdee - change;
    var minHealthy := MinHealthyKcal(p.gender);
    var extendedBy := 0;
    var shown := 0.0;
    var bound := SafeBound(p, tdee);
    if weightDiff < 0.0 {
      if target < tdee + GainSurplus {
        var adjusted;
        adjusted, change, target := ExtendGoalDate(p.goalDay, weightDiff, tdee, tdee + GainSurplus, target);
        RelaxedBounds(p.goalDay, weightDiff, tdee, bound);
        RelaxedExit(p.goalDay, weightDiff, tdee, bound);
        if adjusted > p.goalDay {
          extendedBy := adjusted - p.goalDay;
        }
        daysLeft := adjusted;
        shown := -change;
      }
    } else {
      if target < minHealthy {
        var adjusted;
        adjusted, change, target := ExtendGoalDate(p.goalDay, weightDiff, tdee, minHealthy, target);
        RelaxedBounds(p.goalDay, weightDiff, tdee, bound);
        RelaxedExit(p.goalDay, weightDiff, tdee, bound);
        if adjusted > p.goalDay {
          extendedBy := adjusted - p.goalDay;
        }
        daysLeft := adjusted;
      }
      shown := change;
    }
    var intended := IntendedChange(weightDiff, daysLeft);
    var meals := MealSplit(target);
    rows := BuildDailyPlan(daysLeft, target, meals);
    plan := CaloriePlan(bmr, tdee, change, target, meals, daysLeft, clamped, extendedBy, intended, shown);
  }

  /**
   * The default profile (170 cm, 65 kg, goal 60 kg, male, moderate activity,
   * 30 days): BMR 1670.5, TDEE 2589.275, a first target below the 1500 kcal
   * floor, and a goal date moved back one week, to 37 days.
   */
  lemma DefaultProfileNeedsOneMoreWeek()
    ensures Bmr(Male, 65.0, 170.0) == 1670.5
    ensures Tdee(1670.5, Moderate) == 2589.275
    ensures TargetFor(2589.275, 5.0, 30) < MinHealthyKcal(Male)
    ensures Relaxed(30, 5.0, 2589.275, MinHealthyKcal(Male)) == 37
  {
  }

  /**
   * Gaining towards a goal date after today: whenever relaxation is entered
   * it runs to the five-year cap and still misses the 200 kcal surplus.
   */
  lemma GainPlanRelaxationRunsToCap(p: Profile)
    requires WeightDiff(p) < 0.0 && p.goalDay > 0
    requires var tdee := Tdee(Bmr(p.gender, p.weight, p.height), p.activity);
      TargetFor(tdee, WeightDiff(p), p.goalDay) < tdee + GainSurplus
    ensures var tdee := Tdee(Bmr(p.gender, p.weight, p.height), p.activity);
      var days := Relaxed(p.goalDay, WeightDiff(p), tdee, SafeBound(p, tdee));
      && days > CapDays
      && days <= (if p.goalDay > CapDays then p.goalDay else CapDays) + StepDays
      && TargetFor(tdee, WeightDiff(p), days) < SafeBound(p, tdee)
  {
    var tdee := Tdee(Bmr(p.gender, p.weight, p.height), p.activity);
    GainRelaxationRunsToCap(p.goalDay, WeightDiff(p), tdee);
    RelaxedBounds(p.goalDay, WeightDiff(p), tdee, SafeBound(p, tdee));
  }
}
