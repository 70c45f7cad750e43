/** The arithmetic of the home and progress screens (src/App.jsx): which goals a timeframe
    shows, the headline number, ring and bar progress, the stats window and the net score. */
module Screens {
  import opened Types
  import opened JsMath
  import Calculations
  import opened AppStateHook

  // ---------------------------------------------------------------------------
  // Home screen

  /** The home screen's timeframe switch; every value but day and week shows the month. */
  datatype Timeframe = DayView | WeekView | MonthView

  function DaysOf(tf: Timeframe): int
  {
    match tf
    case DayView => 1
    case WeekView => 7
    case MonthView => 30
  }

  /** The goals shown for a timeframe are the daily goals times its length in days. */
  function GoalsFor(tf: Timeframe, daily: Macros): (g: Macros)
    ensures Calculations.MultipleOf(g, DaysOf(tf))
    ensures Calculations.DivideGoals(g, DaysOf(tf)) == daily
  {
    match tf
    case DayView => daily
    case WeekView => Calculations.WeeklyGoals(daily)
    case MonthView => Calculations.MonthlyGoals(daily)
  }

  /** The headline switch: `left`, `eaten`, `planned`, `total`, or any other value. */
  datatype ViewMode = LeftMode | EatenMode | PlannedMode | TotalMode | OtherMode

  function DisplayValue(mode: ViewMode, goals: Macros, eaten: Macros, planned: Macros, projected: Macros): int
  {
    match mode
    case EatenMode => eaten.calories
    case PlannedMode => planned.calories
    case TotalMode => projected.calories
    case _ => goals.calories - projected.calories
  }

  /** With the hook's projected totals, "left" is the calorie part of calculateRemaining,
      an unknown mode shows the same, and left plus total is the goal. */
  lemma LeftIsRemaining(goals: Macros, foods: seq<FoodEntry>)
    ensures var eaten, planned, projected :=
              Calculations.SumMacros(foods, true),
              Calculations.SumMacros(Calculations.Unconfirmed(foods), false),
              Calculations.SumMacros(foods, false);
      DisplayValue(LeftMode, goals, eaten, planned, projected)
        == Calculations.CalculateRemaining(goals, eaten, planned).calories &&
      DisplayValue(OtherMode, goals, eaten, planned, projected)
        == DisplayValue(LeftMode, goals, eaten, planned, projected) &&
      DisplayValue(LeftMode, goals, eaten, planned, projected)
        + DisplayValue(TotalMode, goals, eaten, planned, projected) == goals.calories
  {
    var eaten, planned := Calculations.SumMacros(foods, true), Calculations.SumMacros(Calculations.Unconfirmed(foods), false);
    Calculations.EatenPlusPlanned(foods);
    assert Calculations.SumMacros(foods, false) == Plus(eaten, planned);
  }

  /** `Math.min(100, (current / goal) * 100)`, used by the calorie ring and each macro bar. */
  function Progress(current: int, goal: int): (p: Number)
    ensures p != PosInfinity
    ensures p.Finite? ==> p.value <= 100.0
    ensures p == NaN <==> current == 0 && goal == 0
    ensures goal > 0 && current >= 0 ==> p.Finite? && 0.0 <= p.value
    ensures goal > 0 && current >= goal ==> p == Finite(100.0)
  {
    assert goal > 0 && current >= goal ==> current as real / goal as real >= 1.0 by {
      if goal > 0 && current >= goal {
        assert current as real / goal as real * goal as real == current as real;
      }
    }
    MinNum(100.0, Scale(Div(current as real, goal as real), 100.0))
  }

  /** A zero calorie goal shows a full ring as soon as anything is projected. */
  lemma ZeroGoalShowsFull(current: int)
    requires current > 0
    ensures Progress(current, 0) == Finite(100.0)
  {
  }

  /** The "Remaining" figure: the calories left, floored at zero. */
  function RemainingShown(goal: int, projected: int): (r: int)
    ensures r >= 0 && r >= goal - projected
    ensures r == 0 || r == goal - projected
  {
    if goal - projected >= 0 then goal - projected else 0
  }

  // ---------------------------------------------------------------------------
  // Progress screen

  /** `7days`, `30days`, `90days`, or any other value. */
  datatype StatsWindow = SevenDays | ThirtyDays | NinetyDays | OtherWindow

  function WindowStart(w: StatsWindow, today: int): int
  {
    match w
    case ThirtyDays => today - 30
    case NinetyDays => today - 90
    case _ => today - 7
  }

  /** getStats includes both ends, so each window spans one more day than its name. */
  lemma WindowSpansOneExtraDay(w: StatsWindow, today: int)
    ensures DaysIn(WindowStart(w, today), today) ==
            match w
            case ThirtyDays => 31
            case NinetyDays => 91
            case _ => 8
  {
  }

  /** Percentage of tracked days on which the protein goal was hit; 0 with nothing tracked. */
  function ProteinHitRate(hitDays: nat, daysTracked: nat): (rate: int)
    ensures hitDays <= daysTracked ==> 0 <= rate <= 100
    ensures hitDays == 0 ==> rate == 0
    ensures daysTracked > 0 && hitDays == daysTracked ==> rate == 100
  {
    if daysTracked > 0 then
      FractionBounds(hitDays, daysTracked);
      Round(hitDays as real / daysTracked as real * 100.0)
    else 0
  }

  lemma FractionBounds(part: nat, whole: nat)
    requires whole > 0
    ensures part <= whole ==> part as real / whole as real <= 1.0
    ensures part == whole ==> part as real / whole as real == 1.0
    ensures part == 0 ==> part as real / whole as real == 0.0
  {
    var p, w := part as real, whole as real;
    var q := p / w;
    assert q * w == p;
    assert (q - 1.0) * w == p - w;
  }

  function ProteinScore(rate: int): (s: real)
    ensures 0 <= rate <= 100 ==> 0.0 <= s <= 50.0
    ensures rate == 100 ==> s == 50.0
  {
    rate as real / 100.0 * 50.0
  }

  /** The deficit half of the net score exactly as written: a JavaScript number, since
      the target can be zero. */
  function DeficitScoreAsWritten(deficit: int, targetCalories: int): Number
  {
    MinNum(50.0, Scale(Div(deficit as real, targetCalories as real * 0.15), 50.0))
  }

  /** The net score exactly as written. */
  function NetScoreAsWritten(s: Stats): Number
  {
    var rate := ProteinHitRate(s.proteinHitDays, s.daysTracked);
    RoundNum(MaxNum(0.0, AddFinite(DeficitScoreAsWritten(s.deficit, s.targetCalories), ProteinScore(rate))))
  }

  /** With no tracked day the target and the deficit are both zero, the deficit half is
      0/0, and the score shown is NaN. */
  lemma NetScoreNaNWithoutTrackedDays(h: History, start: int, end: int, goals: Macros)
    requires forall d :: start <= d <= end ==> !Tracked(h, d)
    ensures NetScoreAsWritten(WindowStats(h, start, end, goals)) == NaN
  {
    EmptyWindow(h, start, end, goals);
  }

  /** The deficit half with the zero target guarded, as the hit rate guards zero days. */
  function DeficitScore(deficit: int, targetCalories: int): (s: real)
    ensures s <= 50.0
    ensures targetCalories == 0 ==> s == 0.0
    ensures targetCalories > 0 && 20 * deficit >= 3 * targetCalories ==> s == 50.0
  {
    if targetCalories == 0 then 0.0
    else
      var scaled := targetCalories as real * 0.15;
      assert targetCalories > 0 && 20 * deficit >= 3 * targetCalories ==> deficit as real / scaled >= 1.0 by {
        if targetCalories > 0 && 20 * deficit >= 3 * targetCalories {
          assert deficit as real >= scaled;
          assert deficit as real / scaled * scaled == deficit as real;
        }
      }
      MinR(50.0, deficit as real / scaled * 50.0)
  }

  /** The net progress score: always between 0 and 100, and 100 for a window with every
      tracked day on protein and a deficit of at least 15% of the calorie target. */
  function NetScore(s: Stats): (score: int)
    ensures s.proteinHitDays <= s.daysTracked ==> 0 <= score <= 100
    ensures (s.targetCalories > 0 && 20 * s.deficit >= 3 * s.targetCalories &&
             s.daysTracked > 0 && s.proteinHitDays == s.daysTracked) ==> score == 100
  {
    var rate := ProteinHitRate(s.proteinHitDays, s.daysTracked);
    Round(MaxR(0.0, DeficitScore(s.deficit, s.targetCalories) + ProteinScore(rate)))
  }

  /** Whenever the calorie target is not zero the guard changes nothing. */
  lemma NetScoreAgreesWhenTargetNonZero(s: Stats)
    requires s.targetCalories != 0
    ensures NetScoreAsWritten(s) == Finite(NetScore(s) as real)
  {
  }

  /** The guarded score of a window with nothing tracked is zero. */
  lemma NetScoreWithoutTrackedDays(h: History, start: int, end: int, goals: Macros)
    requires forall d :: start <= d <= end ==> !Tracked(h, d)
    ensures NetScore(WindowStats(h, start, end, goals)) == 0
  {
    EmptyWindow(h, start, end, goals);
  }
}
