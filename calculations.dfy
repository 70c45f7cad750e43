/** The goal engine, log aggregation and streak walk (src/utils/calculations.js).
    Weights are pounds, heights inches; decimal constants are exact reals. */
module Calculations {
  import opened Types
  import opened JsMath
  import opened Constants

  const KgPerPound: real := 0.453592
  const CmPerInch: real := 2.54

  // ---------------------------------------------------------------------------
  // Metabolic pipeline

  /** Mifflin–St Jeor basal metabolic rate; every sex other than male takes the female constant. */
  function BMR(weight: int, height: int, age: int, sex: Sex): real
  {
    var weightKg := weight as real * KgPerPound;
    var heightCm := height as real * CmPerInch;
    if sex == Male then 10.0 * weightKg + 6.25 * heightCm - 5.0 * age as real + 5.0
    else 10.0 * weightKg + 6.25 * heightCm - 5.0 * age as real - 161.0
  }

  lemma BMRSexGap(weight: int, height: int, age: int)
    ensures BMR(weight, height, age, Male) - BMR(weight, height, age, Female) == 166.0
  {
  }

  /** 180 lb, 70 in, 30 years, male. */
  lemma BMRExample()
    ensures BMR(180, 70, 30, Male) == 1782.7156
  {
  }

  /** `ACTIVITY_LEVELS[level]?.multiplier || 1.55`. */
  function Multiplier(level: ActivityLevel): (m: real)
    ensures m >= 1.2
  {
    GetOr(ActivityMultiplier(level), 1.55)
  }

  /** Total daily energy expenditure, rounded. */
  function TDEE(bmr: real, level: ActivityLevel): (tdee: int)
    ensures tdee as real - 0.5 <= bmr * Multiplier(level) < tdee as real + 0.5
  {
    Round(bmr * Multiplier(level))
  }

  lemma UnknownActivityIsModerate(bmr: real)
    ensures TDEE(bmr, UnknownActivity) == TDEE(bmr, ModeratelyActive)
  {
  }

  /** `GOALS[goal]?.deficit || 0`. */
  function Deficit(goal: GoalKind): int
  {
    GetOr(GoalDeficit(goal), 0)
  }

  /** The daily calorie target; rounding an integer difference changes nothing. */
  function CalorieTarget(tdee: int, goal: GoalKind): (target: int)
    ensures target == tdee - Deficit(goal)
    ensures goal == UnknownGoal || goal == Maintain ==> target == tdee
  {
    Round((tdee - Deficit(goal)) as real)
  }

  /** `PROTEIN_TARGETS[tier]?.multiplier || 1.0`. */
  function ProteinPerPound(tier: ProteinTier): (m: real)
    ensures m > 0.0
  {
    GetOr(ProteinMultiplier(tier), 1.0)
  }

  datatype MacroSplit = MacroSplit(protein: int, carbs: int, fat: int)

  const FatShare: real := 0.27

  /** Protein from bodyweight, fat as 27% of calories at 9 kcal/g, carbs the rest at 4 kcal/g. */
  function CalculateMacros(calories: int, weight: int, tier: ProteinTier): (m: MacroSplit)
    ensures m.carbs >= 0
    ensures calories >= 0 ==> m.fat >= 0
    ensures weight >= 0 ==> m.protein >= 0
  {
    var protein := Round(weight as real * ProteinPerPound(tier));
    var proteinCalories := protein * 4;
    var fatCalories := calories as real * FatShare;
    var fat := Round(fatCalories / 9.0);
    var carbCalories := calories as real - proteinCalories as real - fatCalories;
    var carbs := Round(MaxR(0.0, carbCalories) / 4.0);
    MacroSplit(protein, carbs, fat)
  }

  /** When protein and fat calories fit in the budget, the split accounts for the calories
      to within the three roundings (2 + 4.5 + 0 kcal). */
  lemma MacrosAccountForCalories(calories: int, weight: int, tier: ProteinTier)
    requires var m := CalculateMacros(calories, weight, tier);
      (m.protein * 4) as real + calories as real * FatShare <= calories as real
    ensures var m := CalculateMacros(calories, weight, tier);
      -6.5 <= (4 * m.protein + 4 * m.carbs + 9 * m.fat - calories) as real <= 6.5
  {
  }

  /** When protein and fat alone exceed the calories, carbs bottom out at zero. */
  lemma CarbsFloorAtZero(calories: int, weight: int, tier: ProteinTier)
    requires var m := CalculateMacros(calories, weight, tier);
      (m.protein * 4) as real + calories as real * FatShare >= calories as real
    ensures CalculateMacros(calories, weight, tier).carbs == 0
  {
  }

  lemma UnknownTierIsModerate(calories: int, weight: int)
    ensures CalculateMacros(calories, weight, UnknownTier) == CalculateMacros(calories, weight, ModerateProtein)
  {
  }

  lemma MacrosExample()
    ensures CalculateMacros(2000, 180, ModerateProtein) == MacroSplit(180, 185, 60)
  {
  }

  /** The goals used when the profile cannot feed the formula. */
  const FallbackGoals := Macros(2000, 150, 200, 67)

  /** `!user.weight || !user.height || !user.age || !user.sex`. */
  predicate IncompleteProfile(u: UserProfile)
  {
    !Truthy(u.weight) || !Truthy(u.height) || !Truthy(u.age) || u.sex.None?
  }

  function DailyGoals(u: UserProfile): (g: Macros)
    ensures IncompleteProfile(u) ==> g == FallbackGoals
    ensures !IncompleteProfile(u) ==>
      g.calories == TDEE(BMR(u.weight.value, u.height.value, u.age.value, u.sex.value), u.activityLevel)
                    - Deficit(u.goal)
    ensures !IncompleteProfile(u) ==>
      MacroSplit(g.protein, g.carbs, g.fat) == CalculateMacros(g.calories, u.weight.value, u.proteinTarget)
    ensures g.carbs >= 0
  {
    if IncompleteProfile(u) then FallbackGoals
    else
      var bmr := BMR(u.weight.value, u.height.value, u.age.value, u.sex.value);
      var tdee := TDEE(bmr, u.activityLevel);
      var calories := CalorieTarget(tdee, u.goal);
      var m := CalculateMacros(calories, u.weight.value, u.proteinTarget);
      Macros(calories, m.protein, m.carbs, m.fat)
  }

  lemma DefaultUserGetsFallback()
    ensures DailyGoals(DefaultUser) == FallbackGoals
  {
  }

  // ---------------------------------------------------------------------------
  // Longer periods

  function ScaleGoals(g: Macros, k: int): Macros
  {
    Macros(g.calories * k, g.protein * k, g.carbs * k, g.fat * k)
  }

  function DivideGoals(g: Macros, k: int): Macros
    requires k > 0
  {
    Macros(g.calories / k, g.protein / k, g.carbs / k, g.fat / k)
  }

  /** Every field of `g` is a whole multiple of `k`. */
  predicate MultipleOf(g: Macros, k: int)
    requires k > 0
  {
    g.calories % k == 0 && g.protein % k == 0 && g.carbs % k == 0 && g.fat % k == 0
  }

  /** A week is seven days, whatever the calendar. */
  function WeeklyGoals(daily: Macros): (w: Macros)
    ensures MultipleOf(w, 7)
    ensures DivideGoals(w, 7) == daily
  {
    ScaleGoals(daily, 7)
  }

  /** A month is thirty days, whatever the calendar. */
  function MonthlyGoals(daily: Macros): (m: Macros)
    ensures MultipleOf(m, 30)
    ensures DivideGoals(m, 30) == daily
  {
    ScaleGoals(daily, 30)
  }

  // ---------------------------------------------------------------------------
  // The unused score helper and the fat-loss projection

  /** `x || 1` on a denominator. */
  function NonZero(x: real): (d: real)
    ensures d != 0.0
  {
    if x == 0.0 then 1.0 else x
  }

  /** One half of calculateProgressScore: full 50 when `actual` reaches `target`. */
  function HalfScore(actual: real, target: real): (s: int)
    ensures s <= 50
    ensures target > 0.0 && actual >= target ==> s == 50
  {
    var ratio := MinR(1.0, actual / NonZero(target));
    assert target > 0.0 && actual >= target ==> actual / target >= 1.0 by {
      if target > 0.0 && actual >= target {
        assert actual / target * target == actual;
      }
    }
    Round(ratio * 50.0)
  }

  function ProgressScore(deficit: real, targetDeficit: real, proteinActual: real, proteinTarget: real): (score: int)
    ensures score <= 100
    ensures targetDeficit > 0.0 && deficit >= targetDeficit && proteinTarget > 0.0 && proteinActual >= proteinTarget
            ==> score == 100
  {
    var calorieScore := HalfScore(deficit, targetDeficit);
    var proteinScore := HalfScore(proteinActual, proteinTarget);
    if 100 <= calorieScore + proteinScore then 100 else calorieScore + proteinScore
  }

  /** A whole number of tenths `n` is within 0.05 of `y` when `n` rounds `10·y`. */
  lemma TenthsNear(n: int, y: real)
    requires n as real - 0.5 <= y * 10.0 < n as real + 0.5
    ensures -0.05 <= n as real / 10.0 - y <= 0.05
    ensures n as real / 10.0 * 10.0 == n as real
    ensures y >= 0.0 ==> n >= 0
    ensures n > 0 ==> y > 0.0
  {
  }

  /** `Number((x).toFixed(1))` for an exact real: tenths, halves away from zero. */
  function ToTenths(x: real): (r: real)
    ensures -0.05 <= r - x <= 0.05
    ensures (r * 10.0).Floor as real == r * 10.0
    ensures r > 0.0 ==> x > 0.0
    ensures r < 0.0 ==> x < 0.0
  {
    if x >= 0.0 then
      var n := Round(x * 10.0);
      TenthsNear(n, x);
      n as real / 10.0
    else
      var n := Round(-x * 10.0);
      TenthsNear(n, -x);
      assert -(n as real / 10.0) * 10.0 == (-n) as real;
      -(n as real / 10.0)
  }

  const CaloriesPerPound: real := 3500.0

  /** Pounds of fat a calorie deficit stands for; a surplus gives a negative figure. */
  function ProjectedFatLoss(deficit: int): (pounds: real)
    ensures -0.05 <= pounds - deficit as real / CaloriesPerPound <= 0.05
    ensures pounds > 0.0 ==> deficit > 0
    ensures pounds < 0.0 ==> deficit < 0
  {
    ToTenths(deficit as real / CaloriesPerPound)
  }

  lemma WholePoundsAreExact(k: int)
    ensures ProjectedFatLoss(3500 * k) == k as real
  {
    assert (3500 * k) as real / CaloriesPerPound == k as real;
    RoundOfInteger(10 * k);
    RoundOfInteger(-10 * k);
  }

  // ---------------------------------------------------------------------------
  // Summing a day's entries

  /** `food.x || 0`. */
  function Amount(v: Option<int>): int
  {
    GetOr(v, 0)
  }

  function EntryMacros(e: FoodEntry): Macros
  {
    Macros(Amount(e.calories), Amount(e.protein), Amount(e.carbs), Amount(e.fat))
  }

  /** The `reduce` in sumMacros: a left fold from all zeros. */
  function Total(foods: seq<FoodEntry>): Macros
  {
    if foods == [] then Zero
    else Plus(Total(foods[..|foods| - 1]), EntryMacros(foods[|foods| - 1]))
  }

  /** `foods.filter(f => f.confirmed)`. */
  function ConfirmedOnly(foods: seq<FoodEntry>): (r: seq<FoodEntry>)
    ensures |r| <= |foods|
    ensures forall i :: 0 <= i < |r| ==> r[i].confirmed
  {
    if foods == [] then []
    else
      var last := foods[|foods| - 1];
      ConfirmedOnly(foods[..|foods| - 1]) + (if last.confirmed then [last] else [])
  }

  /** `foods.filter(f => !f.confirmed)`. */
  function Unconfirmed(foods: seq<FoodEntry>): (r: seq<FoodEntry>)
    ensures |r| <= |foods|
    ensures forall i :: 0 <= i < |r| ==> !r[i].confirmed
  {
    if foods == [] then []
    else
      var last := foods[|foods| - 1];
      Unconfirmed(foods[..|foods| - 1]) + (if last.confirmed then [] else [last])
  }

  function SumMacros(foods: seq<FoodEntry>, confirmedOnly: bool): Macros
  {
    Total(if confirmedOnly then ConfirmedOnly(foods) else foods)
  }

  lemma {:induction false} TotalConcat(a: seq<FoodEntry>, b: seq<FoodEntry>)
    ensures Total(a + b) == Plus(Total(a), Total(b))
    decreases |b|
  {
    if b == [] {
      assert a + b == a;
    } else {
      var b' := b[..|b| - 1];
      assert (a + b)[..|a + b| - 1] == a + b';
      TotalConcat(a, b');
    }
  }

  lemma {:induction false} FiltersConcat(a: seq<FoodEntry>, b: seq<FoodEntry>)
    ensures ConfirmedOnly(a + b) == ConfirmedOnly(a) + ConfirmedOnly(b)
    ensures Unconfirmed(a + b) == Unconfirmed(a) + Unconfirmed(b)
    decreases |b|
  {
    if b == [] {
      assert a + b == a;
    } else {
      var b' := b[..|b| - 1];
      var last := b[|b| - 1];
      assert (a + b)[..|a + b| - 1] == a + b';
      assert (a + b)[|a + b| - 1] == last;
      FiltersConcat(a, b');
      var keep := if last.confirmed then [last] else [];
      var drop := if last.confirmed then [] else [last];
      assert ConfirmedOnly(a + b) == ConfirmedOnly(a + b') + keep;
      assert ConfirmedOnly(b) == ConfirmedOnly(b') + keep;
      assert ConfirmedOnly(a) + ConfirmedOnly(b) == (ConfirmedOnly(a) + ConfirmedOnly(b')) + keep;
      assert Unconfirmed(a + b) == Unconfirmed(a + b') + drop;
      assert Unconfirmed(b) == Unconfirmed(b') + drop;
      assert Unconfirmed(a) + Unconfirmed(b) == (Unconfirmed(a) + Unconfirmed(b')) + drop;
    }
  }

  /**
   * The two filters split the log: with their ensures, the confirmed filter keeps
   * every confirmed entry, copy for copy, and the planned filter every other one.
   */
  lemma {:induction false} FiltersSplitTheLog(foods: seq<FoodEntry>)
    ensures multiset(ConfirmedOnly(foods)) + multiset(Unconfirmed(foods)) == multiset(foods)
    decreases |foods|
  {
    if foods != [] {
      var init := foods[..|foods| - 1];
      FiltersSplitTheLog(init);
      assert foods == init + [foods[|foods| - 1]];
    }
  }

  /** Summing a concatenation is summing the parts, with either filter setting. */
  lemma SumMacrosConcat(a: seq<FoodEntry>, b: seq<FoodEntry>, confirmedOnly: bool)
    ensures SumMacros(a + b, confirmedOnly) == Plus(SumMacros(a, confirmedOnly), SumMacros(b, confirmedOnly))
  {
    FiltersConcat(a, b);
    if confirmedOnly {
      TotalConcat(ConfirmedOnly(a), ConfirmedOnly(b));
    } else {
      TotalConcat(a, b);
    }
  }

  lemma SumMacrosOfNothing(confirmedOnly: bool)
    ensures SumMacros([], confirmedOnly) == Zero
  {
  }

  /** Only planned entries: nothing has been eaten. */
  lemma {:induction false} SumMacrosAllPlanned(foods: seq<FoodEntry>)
    requires forall e :: e in foods ==> !e.confirmed
    ensures SumMacros(foods, true) == Zero
  {
    if foods != [] {
      var prefix := foods[..|foods| - 1];
      assert forall e :: e in prefix ==> e in foods;
      assert foods[|foods| - 1] in foods;
      assert ConfirmedOnly(foods) == ConfirmedOnly(prefix) + [] == ConfirmedOnly(prefix);
      SumMacrosAllPlanned(prefix);
    }
  }

  /** Eaten plus planned is everything on the day. */
  lemma EatenPlusPlanned(foods: seq<FoodEntry>)
    ensures Plus(SumMacros(foods, true), SumMacros(Unconfirmed(foods), false)) == SumMacros(foods, false)
  {
    FiltersSplitTotal(foods);
  }

  lemma {:induction false} FiltersSplitTotal(foods: seq<FoodEntry>)
    ensures Plus(Total(ConfirmedOnly(foods)), Total(Unconfirmed(foods))) == Total(foods)
  {
    if foods != [] {
      var prefix, last := foods[..|foods| - 1], foods[|foods| - 1];
      FiltersSplitTotal(prefix);
      var c, u := ConfirmedOnly(prefix), Unconfirmed(prefix);
      var m := EntryMacros(last);
      assert Total(foods) == Plus(Total(prefix), m);
      if last.confirmed {
        assert ConfirmedOnly(foods) == c + [last];
        assert Unconfirmed(foods) == u;
        TotalAppendOne(c, last);
        PlusMovesLast(Total(c), Total(u), m);
      } else {
        assert Unconfirmed(foods) == u + [last];
        assert ConfirmedOnly(foods) == c;
        TotalAppendOne(u, last);
        PlusMovesLast(Total(c), Total(u), m);
      }
    }
  }

  lemma PlusMovesLast(a: Macros, b: Macros, m: Macros)
    ensures Plus(Plus(a, m), b) == Plus(Plus(a, b), m)
    ensures Plus(a, Plus(b, m)) == Plus(Plus(a, b), m)
  {
  }

  lemma TotalAppendOne(s: seq<FoodEntry>, e: FoodEntry)
    ensures Total(s + [e]) == Plus(Total(s), EntryMacros(e))
  {
    var t := s + [e];
    assert t[..|t| - 1] == s;
  }

  /** What is left of the goals once eaten and planned food are counted. */
  function CalculateRemaining(goals: Macros, eaten: Macros, planned: Macros): (r: Macros)
    ensures Plus(Plus(r, eaten), planned) == goals
  {
    Macros(goals.calories - eaten.calories - planned.calories,
           goals.protein - eaten.protein - planned.protein,
           goals.carbs - eaten.carbs - planned.carbs,
           goals.fat - eaten.fat - planned.fat)
  }

  // ---------------------------------------------------------------------------
  // Per-day checks

  function DidHitProtein(foods: seq<FoodEntry>, target: int): bool
  {
    SumMacros(foods, true).protein >= target
  }

  function DidStayUnderBudget(foods: seq<FoodEntry>, budget: int): bool
  {
    SumMacros(foods, true).calories <= budget
  }

  /** Appending one entry adds it to the projected totals, and to the eaten ones when confirmed. */
  lemma AppendEntrySums(foods: seq<FoodEntry>, e: FoodEntry)
    ensures SumMacros(foods + [e], false) == Plus(SumMacros(foods, false), EntryMacros(e))
    ensures SumMacros(foods + [e], true) ==
            if e.confirmed then Plus(SumMacros(foods, true), EntryMacros(e)) else SumMacros(foods, true)
  {
    var all := foods + [e];
    assert all[..|all| - 1] == foods;
    var c := ConfirmedOnly(foods);
    if e.confirmed {
      assert ConfirmedOnly(all) == c + [e];
      assert (c + [e])[..|c|] == c;
    } else {
      assert ConfirmedOnly(all) == c + [] == c;
    }
  }

  /** A planned entry changes neither check; an eaten one can only help protein and hurt budget. */
  lemma DayChecksAfterAppend(foods: seq<FoodEntry>, e: FoodEntry, target: int, budget: int)
    ensures !e.confirmed ==> DidHitProtein(foods + [e], target) == DidHitProtein(foods, target)
    ensures !e.confirmed ==> DidStayUnderBudget(foods + [e], budget) == DidStayUnderBudget(foods, budget)
    ensures e.confirmed && Amount(e.protein) >= 0 && DidHitProtein(foods, target) ==> DidHitProtein(foods + [e], target)
    ensures e.confirmed && Amount(e.calories) >= 0 && DidStayUnderBudget(foods + [e], budget) ==> DidStayUnderBudget(foods, budget)
  {
    AppendEntrySums(foods, e);
  }

  // ---------------------------------------------------------------------------
  // Streak

  /** Consecutive non-empty days walking back from `day`, at most `n` of them. */
  function RunBack(h: History, day: int, n: nat): (r: nat)
    ensures r <= n
    ensures forall d :: day - r < d <= day ==> Tracked(h, d)
    ensures r < n ==> !Tracked(h, day - r)
    decreases n
  {
    if n == 0 || !Tracked(h, day) then 0 else 1 + RunBack(h, day - 1, n - 1)
  }

  /** Only the run length satisfies RunBack's contract. */
  lemma {:induction false} RunBackUnique(h: History, day: int, n: nat, k: nat)
    requires k <= n
    requires forall d :: day - k < d <= day ==> Tracked(h, d)
    requires k == n || !Tracked(h, day - k)
    ensures RunBack(h, day, n) == k
    decreases n
  {
    if k > 0 {
      RunBackUnique(h, day - 1, n - 1, k - 1);
    }
  }

  /** The streak: today counts if it has entries but an empty today does not end the walk,
      which covers 365 days at most. */
  function Streak(h: History, today: int): (s: nat)
    ensures s <= 365
  {
    (if Tracked(h, today) then 1 else 0) + RunBack(h, today - 1, YesterdaysLookBack)
  }

  /** The walk looks at 365 days, today included. */
  const YesterdaysLookBack: nat := 364

  /** Days `last - len + 1 .. last` are all tracked, and the run stops there: it reached
      the cap or the day before it is empty. */
  predicate RunEndingAt(h: History, last: int, len: nat, cap: nat)
  {
    (forall d :: last - len < d <= last ==> Tracked(h, d)) && (len == cap || !Tracked(h, last - len))
  }

  /** The streak is the unbroken run of non-empty days ending today, or yesterday when
      today is empty, capped at 365 days looked at. */
  lemma StreakIsRunEndingToday(h: History, today: int)
    ensures Tracked(h, today) ==> RunEndingAt(h, today, Streak(h, today), 365)
    ensures !Tracked(h, today) ==> RunEndingAt(h, today - 1, Streak(h, today), 364)
  {
    var r := RunBack(h, today - 1, YesterdaysLookBack);
    assert RunEndingAt(h, today - 1, r, YesterdaysLookBack);
    assert Streak(h, today) == (if Tracked(h, today) then 1 else 0) + r;
    if Tracked(h, today) {
      forall d | today - (1 + r) < d <= today
        ensures Tracked(h, d)
      {
        if d < today {
          assert today - 1 - r < d <= today - 1;
        }
      }
      assert RunEndingAt(h, today, 1 + r, 1 + YesterdaysLookBack);
    }
  }

  method CalculateStreak(history: History, today: int) returns (streak: nat)
    ensures streak == Streak(history, today)
  {
    streak := 0;
    ghost var stopped := false;
    for i := 0 to 365
      invariant i == 0 ==> streak == 0
      invariant i >= 1 ==> streak == (if Tracked(history, today) then 1 else 0) + (i - 1)
      invariant forall d :: today - i < d < today ==> Tracked(history, d)
    {
      var day := today - i;
      if |DayLog(history, day)| > 0 {
        streak := streak + 1;
      } else if i > 0 {
        RunBackUnique(history, today - 1, YesterdaysLookBack, i - 1);
        stopped := true;
        break;
      }
    }
    if !stopped {
      RunBackUnique(history, today - 1, YesterdaysLookBack, YesterdaysLookBack);
    }
  }
}
