/**
 * The calorie-goal engine of FiNAL.py (diet results page): the days-left
 * clamp, Harris-Benedict BMR with age fixed at 20, TDEE, the daily energy
 * change needed at 7700 kcal per kg, the relaxation loop that pushes the goal
 * date back in 7-day steps until the daily target is safe or five years have
 * passed, and the fixed meal split.
 *
 * Dates are whole days after today; energies and masses are real numbers.
 */
module CalorieEngine {

  datatype Gender = Male | Female
  datatype Activity = Low | Moderate | High

  const KcalPerKg: real := 7700.0
  const Age: real := 20.0
  const DefaultDays: int := 30
  const StepDays: int := 7
  const CapDays: int := 1825          // 365 * 5
  const GainSurplus: real := 200.0

  /** A goal date today or in the past is replaced by 30 days from today. */
  function ClampDays(daysLeft: int): (r: int)
    ensures r > 0
    ensures daysLeft > 0 ==> r == daysLeft
    ensures daysLeft <= 0 ==> r == DefaultDays
  {
    if daysLeft <= 0 then DefaultDays else daysLeft
  }

  /** Harris-Benedict basal metabolic rate, kcal per day, for a person aged 20. */
  function Bmr(gender: Gender, weight: real, height: real): (r: real)
    ensures weight >= 30.0 && height >= 100.0 ==> r >= 841.0
  {
    match gender
    case Male => 66.0 + 13.7 * weight + 5.0 * height - 6.8 * Age
    case Female => 655.0 + 9.6 * weight + 1.8 * height - 4.7 * Age
  }

  function ActivityFactor(activity: Activity): (f: real)
    ensures 1.2 <= f <= 1.9
  {
    match activity
    case Low => 1.2
    case Moderate => 1.55
    case High => 1.9
  }

  /** Total daily energy expenditure. */
  function Tdee(bmr: real, activity: Activity): (r: real)
    ensures bmr >= 0.0 ==> 1.2 * bmr <= r <= 1.9 * bmr
  {
    bmr * ActivityFactor(activity)
  }

  /** The daily intake floor when losing (or keeping) weight. */
  function MinHealthyKcal(gender: Gender): real
  {
    if gender == Female then 1200.0 else 1500.0
  }

  /**
   * `(weight_diff * 7700) / days`: the daily deficit (positive) or surplus
   * (negative) that reaches the goal weight in `days` days.
   */
  function DailyChange(weightDiff: real, days: int): (c: real)
    requires days > 0
    ensures c * days as real == weightDiff * KcalPerKg
    ensures c >= 0.0 <==> weightDiff >= 0.0
  {
    weightDiff * KcalPerKg / days as real
  }

  /** The recommended daily intake when the goal is `days` days away. */
  function TargetFor(tdee: real, weightDiff: real, days: int): real
    requires days > 0
  {
    tdee - DailyChange(weightDiff, days)
  }

  /** When gaining, a later goal date only shrinks the daily surplus. */
  lemma GainTargetShrinks(tdee: real, weightDiff: real, a: int, b: int)
    requires weightDiff < 0.0 && 0 < a < b
    ensures TargetFor(tdee, weightDiff, b) < TargetFor(tdee, weightDiff, a)
  {
    var ca := DailyChange(weightDiff, a);
    var cb := DailyChange(weightDiff, b);
    assert ca * a as real == cb * b as real;
    assert cb < 0.0;
    assert cb * a as real > cb * b as real;
    assert (cb - ca) * a as real > 0.0;
  }

  /** When losing (or keeping) weight the target never exceeds TDEE. */
  lemma LossTargetAtMostTdee(tdee: real, weightDiff: real, days: int)
    requires weightDiff >= 0.0 && days > 0
    ensures TargetFor(tdee, weightDiff, days) <= tdee
  {
  }

  // ---------------------------------------------------------------------------
  // The relaxation loop
  // ---------------------------------------------------------------------------

  /** One pass of the loop: a week later, and 7 days if that is still not after today. */
  function NextDays(days: int): (r: int)
    ensures r > 0 && r >= days + StepDays
  {
    if days + StepDays <= 0 then StepDays else days + StepDays
  }

  /**
   * The day count the relaxation loop ends with when started from `days`:
   * the first day count, one week after another, whose target meets `bound`,
   * or the first one past the five-year cap.
   */
  function Relaxed(days: int, weightDiff: real, tdee: real, bound: real): int
    decreases CapDays + 1 - days
  {
    var next := NextDays(days);
    if TargetFor(tdee, weightDiff, next) >= bound || next > CapDays then next
    else Relaxed(next, weightDiff, tdee, bound)
  }

  /**
   * The loop of FiNAL.py, identical in the gaining and the losing branch
   * except for the bound: entered because the current target is below the
   * bound, it restarts from the unclamped day count and extends it a week at
   * a time, recomputing the daily change and the target each time.
   */
  method ExtendGoalDate(originalDays: int, weightDiff: real, tdee: real, bound: real, target0: real)
    returns (adjusted: int, change: real, target: real)
    requires target0 < bound
    ensures adjusted == Relaxed(originalDays, weightDiff, tdee, bound)
    ensures adjusted > 0 && change == DailyChange(weightDiff, adjusted) && target == tdee - change
  {
    adjusted := originalDays;
    change := tdee - target0;
    target := target0;
    while target < bound
      invariant (adjusted == originalDays && target == target0) || (
        && adjusted > originalDays && adjusted > 0
        && change == DailyChange(weightDiff, adjusted) && target == tdee - change
        && (target < bound ==> adjusted <= CapDays)
        && Relaxed(originalDays, weightDiff, tdee, bound) ==
           (if target >= bound then adjusted else Relaxed(adjusted, weightDiff, tdee, bound)))
      decreases CapDays + 1 - adjusted
    {
      adjusted := adjusted + StepDays;
      if adjusted <= 0 {
        adjusted := StepDays;
      }
      change := weightDiff * KcalPerKg / adjusted as real;
      target := tdee - change;
      if adjusted > CapDays {
        break;
      }
    }
  }

  /** The loop ends on a positive day count at least a week later and at most a week past the cap. */
  lemma {:induction false} RelaxedBounds(days: int, weightDiff: real, tdee: real, bound: real)
    ensures var r := Relaxed(days, weightDiff, tdee, bound);
      r > 0 && r >= days + StepDays && r <= (if days > CapDays then days else CapDays) + StepDays
    decreases CapDays + 1 - days
  {
    var next := NextDays(days);
    if !(TargetFor(tdee, weightDiff, next) >= bound || next > CapDays) {
      RelaxedBounds(next, weightDiff, tdee, bound);
    }
  }

  /** On exit the target meets the bound or the five-year cap has been passed. */
  lemma {:induction false} RelaxedExit(days: int, weightDiff: real, tdee: real, bound: real)
    ensures var r := Relaxed(days, weightDiff, tdee, bound);
      r > 0 && (TargetFor(tdee, weightDiff, r) >= bound || r > CapDays)
    decreases CapDays + 1 - days
  {
    var next := NextDays(days);
    if !(TargetFor(tdee, weightDiff, next) >= bound || next > CapDays) {
      RelaxedExit(next, weightDiff, tdee, bound);
    }
  }

  /** From a day count more than a week before today the loop moves in whole weeks. */
  lemma {:induction false} RelaxedWholeWeeks(days: int, weightDiff: real, tdee: real, bound: real)
    requires days > -StepDays
    ensures (Relaxed(days, weightDiff, tdee, bound) - days) % StepDays == 0
    decreases CapDays + 1 - days
  {
    var next := NextDays(days);
    if !(TargetFor(tdee, weightDiff, next) >= bound || next > CapDays) {
      RelaxedWholeWeeks(next, weightDiff, tdee, bound);
    }
  }

  /**
   * Every whole week the loop passed over before stopping was below the bound
   * and within the cap: together with `RelaxedExit`, the result is the first
   * week that is safe or past the cap.
   */
  lemma {:induction false} RelaxedSkipsOnlyUnsafeWeeks(days: int, weightDiff: real, tdee: real, bound: real, e: int)
    requires days > -StepDays
    requires days + StepDays <= e < Relaxed(days, weightDiff, tdee, bound) && (e - days) % StepDays == 0
    ensures e <= CapDays && TargetFor(tdee, weightDiff, e) < bound
    decreases CapDays + 1 - days
  {
    var next := days + StepDays;
    assert NextDays(days) == next;
    assert TargetFor(tdee, weightDiff, next) < bound && next <= CapDays;
    if e != next {
      assert Relaxed(days, weightDiff, tdee, bound) == Relaxed(next, weightDiff, tdee, bound);
      assert (e - next) % StepDays == 0 by {
        assert e - next == (e - days) - StepDays;
      }
      RelaxedSkipsOnlyUnsafeWeeks(next, weightDiff, tdee, bound, e);
    }
  }

  /**
   * Gaining with a goal date after today: each extra week lowers the surplus,
   * so the loop never meets `tdee + 200` and always runs to the cap.
   */
  lemma {:induction false} GainRelaxationRunsToCap(days: int, weightDiff: real, tdee: real)
    requires weightDiff < 0.0 && days > 0
    requires TargetFor(tdee, weightDiff, days) < tdee + GainSurplus
    ensures var r := Relaxed(days, weightDiff, tdee, tdee + GainSurplus);
      r > CapDays && TargetFor(tdee, weightDiff, r) < tdee + GainSurplus
    decreases CapDays + 1 - days
  {
    var next := NextDays(days);
    GainTargetShrinks(tdee, weightDiff, days, next);
    if next <= CapDays {
      GainRelaxationRunsToCap(next, weightDiff, tdee);
    }
  }

  /**
   * Losing or keeping weight when TDEE itself is below the floor: no goal
   * date helps, and the loop runs to the cap.
   */
  lemma {:induction false} FloorAboveTdeeRunsToCap(days: int, weightDiff: real, tdee: real, bound: real)
    requires weightDiff >= 0.0 && tdee < bound
    ensures Relaxed(days, weightDiff, tdee, bound) > CapDays
    decreases CapDays + 1 - days
  {
    var next := NextDays(days);
    LossTargetAtMostTdee(tdee, weightDiff, next);
    if next <= CapDays {
      FloorAboveTdeeRunsToCap(next, weightDiff, tdee, bound);
    }
  }

  // ---------------------------------------------------------------------------
  // Meal split
  // ---------------------------------------------------------------------------

  datatype Meals = Meals(breakfast: real, lunch: real, dinner: real)

  /** Half the target at breakfast, 33% at lunch, 17% at dinner. */
  function MealSplit(target: real): (m: Meals)
    ensures m.breakfast + m.lunch + m.dinner == target
    ensures target >= 0.0 ==> 0.0 <= m.dinner <= m.lunch <= m.breakfast
  {
    Meals(target * 0.5, target * 0.33, target * 0.17)
  }
}
