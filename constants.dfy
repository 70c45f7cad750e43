/** The fixed tables the app is configured with (src/data/constants.js).
    Display labels, descriptions and colours are not modelled. */
module Constants {
  import opened Types

  /** Keys of CHARACTER_MOODS. */
  datatype Mood = Calm | Happy | Excited | Thinking | Supportive | Proud | Welcome

  /** `ACTIVITY_LEVELS[key]?.multiplier`: `None` when the key is not in the table. */
  function ActivityMultiplier(a: ActivityLevel): (m: Option<real>)
    ensures m.Some? <==> a != UnknownActivity
  {
    match a
    case Sedentary => Some(1.2)
    case Light => Some(1.375)
    case ModeratelyActive => Some(1.55)
    case Active => Some(1.725)
    case Athlete => Some(1.9)
    case UnknownActivity => None
  }

  /** The activity keys in the order the table lists them. */
  const ActivityOrder: seq<ActivityLevel> := [Sedentary, Light, ModeratelyActive, Active, Athlete]

  predicate MultiplierBelow(a: ActivityLevel, b: ActivityLevel)
  {
    ActivityMultiplier(a).Some? && ActivityMultiplier(b).Some? &&
    ActivityMultiplier(a).value < ActivityMultiplier(b).value
  }

  lemma ActivityMultipliersIncrease()
    ensures forall i, j :: 0 <= i < j < |ActivityOrder| ==> MultiplierBelow(ActivityOrder[i], ActivityOrder[j])
  {
    forall i, j | 0 <= i < j < |ActivityOrder|
      ensures MultiplierBelow(ActivityOrder[i], ActivityOrder[j])
    {
      assert i == 0 || i == 1 || i == 2 || i == 3;
    }
  }

  /** `GOALS[key]?.deficit`: calories below expenditure; negative is a surplus. */
  function GoalDeficit(g: GoalKind): (d: Option<int>)
    ensures d.Some? <==> g != UnknownGoal
  {
    match g
    case LoseFast => Some(750)
    case Lose => Some(500)
    case LoseSlow => Some(250)
    case Maintain => Some(0)
    case GainSlow => Some(-250)
    case Gain => Some(-500)
    case UnknownGoal => None
  }

  const GoalOrder: seq<GoalKind> := [LoseFast, Lose, LoseSlow, Maintain, GainSlow, Gain]

  predicate DeficitAbove(a: GoalKind, b: GoalKind)
  {
    GoalDeficit(a).Some? && GoalDeficit(b).Some? && GoalDeficit(a).value > GoalDeficit(b).value
  }

  lemma GoalDeficitsDecrease()
    ensures forall i, j :: 0 <= i < j < |GoalOrder| ==> DeficitAbove(GoalOrder[i], GoalOrder[j])
    ensures forall g :: GoalDeficit(g) == Some(0) <==> g == Maintain
  {
    forall i, j | 0 <= i < j < |GoalOrder|
      ensures DeficitAbove(GoalOrder[i], GoalOrder[j])
    {
      assert i == 0 || i == 1 || i == 2 || i == 3 || i == 4;
    }
  }

  /** `PROTEIN_TARGETS[key]?.multiplier`: grams per pound of bodyweight. */
  function ProteinMultiplier(t: ProteinTier): (m: Option<real>)
    ensures m.Some? <==> t != UnknownTier
    ensures t == LowProtein ==> m == Some(0.8)
    ensures t == ModerateProtein ==> m == Some(1.0)
    ensures t == HighProtein ==> m == Some(1.2)
  {
    match t
    case LowProtein => Some(0.8)
    case ModerateProtein => Some(1.0)
    case HighProtein => Some(1.2)
    case UnknownTier => None
  }

  /** The profile the onboarding wizard starts from. */
  const DefaultUser := UserProfile(
    name := "", age := None, sex := None, height := None, weight := None,
    goalWeight := None, bodyFat := None, activityLevel := ModeratelyActive, goal := Lose,
    proteinTarget := ModerateProtein, onboardingComplete := false)

  lemma DefaultUserKeysAreInTables()
    ensures ActivityMultiplier(DefaultUser.activityLevel).Some?
    ensures GoalDeficit(DefaultUser.goal).Some?
    ensures ProteinMultiplier(DefaultUser.proteinTarget).Some?
    ensures !Truthy(DefaultUser.weight) && !Truthy(DefaultUser.height) && !Truthy(DefaultUser.age)
    ensures DefaultUser.sex.None?
  {
  }

  /** Keys of COIN_REWARDS. */
  datatype Reward = LogMeal | ConfirmPlanned | HitProtein | UnderBudget | StreakDay
                  | CompleteCheckIn | FirstLog | WeekStreak | MonthStreak

  function CoinReward(r: Reward): (coins: int)
    ensures coins > 0
    ensures r == LogMeal || r == ConfirmPlanned ==> coins == 5
    ensures r == FirstLog || r == CompleteCheckIn ==> coins == 10
  {
    match r
    case LogMeal => 5
    case ConfirmPlanned => 5
    case HitProtein => 15
    case UnderBudget => 10
    case StreakDay => 2
    case CompleteCheckIn => 10
    case FirstLog => 10
    case WeekStreak => 50
    case MonthStreak => 200
  }

  function Sample(id: string, name: string, calories: int, protein: int, carbs: int, fat: int,
                  items: seq<FoodItem>): FoodEntry
  {
    FoodEntry(id, name, Some(calories), Some(protein), Some(carbs), Some(fat), false, items)
  }

  /** SAMPLE_FOODS; `confirmed` is absent in the table, so it reads as false. */
  const SampleFoods: seq<FoodEntry> := [
    Sample("sample_1", "Eggs, Avocado, and Toast", 450, 20, 40, 25, [
      FoodItem("3 eggs scrambled", 210, 18, 2, 15),
      FoodItem("Half avocado", 120, 1, 6, 11),
      FoodItem("Sourdough toast", 120, 4, 22, 1)]),
    Sample("sample_2", "Chipotle Chicken Bowl", 610, 52, 55, 23, [
      FoodItem("Chicken", 180, 32, 0, 7),
      FoodItem("White rice", 210, 4, 40, 4),
      FoodItem("Black beans", 130, 8, 22, 1),
      FoodItem("Fajita veggies", 20, 1, 4, 0),
      FoodItem("Salsa", 25, 1, 5, 0),
      FoodItem("Cheese", 45, 3, 0, 4)]),
    Sample("sample_3", "Protein Shake", 160, 30, 5, 2, [
      FoodItem("Whey protein 1 scoop", 120, 24, 3, 1),
      FoodItem("Almond milk 1 cup", 40, 1, 2, 3)]),
    Sample("sample_4", "Salmon with Rice and Broccoli", 729, 58, 56, 28, [
      FoodItem("Salmon 8oz", 468, 50, 0, 28),
      FoodItem("White rice 1 cup", 206, 4, 45, 0),
      FoodItem("Steamed broccoli", 55, 4, 11, 0)]),
    Sample("sample_5", "Greek Yogurt with Berries", 180, 18, 20, 3, [
      FoodItem("Greek yogurt 1 cup", 130, 17, 8, 2),
      FoodItem("Mixed berries 1/2 cup", 40, 1, 10, 0),
      FoodItem("Honey drizzle", 10, 0, 2, 0)])
  ]

  function ItemsCalories(items: seq<FoodItem>): int
  {
    if items == [] then 0 else items[0].calories + ItemsCalories(items[1..])
  }

  lemma SampleFoodsAreConsistent()
    ensures forall k :: 0 <= k < |SampleFoods| ==>
      SampleFoods[k].calories == Some(ItemsCalories(SampleFoods[k].items))
    ensures forall i, j :: 0 <= i < j < |SampleFoods| ==> SampleFoods[i].id != SampleFoods[j].id
  {
    SampleCaloriesAddUp();
    var f := SampleFoods;
    forall i, j | 0 <= i < j < |f|
      ensures f[i].id != f[j].id
    {
      assert i == 0 || i == 1 || i == 2 || i == 3;
      assert f[i].id[7] != f[j].id[7];
    }
  }

  lemma SampleCaloriesAddUp()
    ensures forall k :: 0 <= k < |SampleFoods| ==>
      SampleFoods[k].calories == Some(ItemsCalories(SampleFoods[k].items))
  {
    var f := SampleFoods;
    assert f[0].items[1..][1..][1..] == [];
    assert f[1].items[1..][1..][1..][1..][1..][1..] == [];
    assert f[2].items[1..][1..] == [];
    assert f[3].items[1..][1..][1..] == [];
    assert f[4].items[1..][1..][1..] == [];
  }

  /** Keys of CHECK_IN_FLOWS. */
  datatype CheckInKind = ProgressCheckIn | CravingCheckIn | GuiltCheckIn

  datatype AnswerOption = AnswerOption(text: string, value: string)
  datatype CheckInStep = CheckInStep(question: string, options: seq<AnswerOption>)
  datatype CheckInFlow = CheckInFlow(title: string, characterMood: Mood, steps: seq<CheckInStep>)

  const WeightFeelings := [
    AnswerOption("Frustrated, not moving fast enough", "frustrated"),
    AnswerOption("Okay, trying to stay patient", "okay"),
    AnswerOption("Good, seeing some changes", "good"),
    AnswerOption("Great, really motivated", "great")]
  const MuscleFeelings := [
    AnswerOption("Haven't focused on it much", "neglected"),
    AnswerOption("Maintaining but not growing", "maintaining"),
    AnswerOption("Making slow progress", "progress"),
    AnswerOption("Feeling stronger", "strong")]
  const CravingTypes := [
    AnswerOption("Something sweet", "sweet"),
    AnswerOption("Something salty/crunchy", "salty"),
    AnswerOption("A specific food I can't stop thinking about", "specific"),
    AnswerOption("Just want to eat even though I'm not hungry", "emotional")]
  const CravingIntensities := [
    AnswerOption("Mild, just a thought", "mild"),
    AnswerOption("Moderate, hard to ignore", "moderate"),
    AnswerOption("Strong, feels urgent", "strong")]
  const GuiltEvents := [
    AnswerOption("Ate way more than planned", "overate"),
    AnswerOption("Ate something 'off plan'", "offplan"),
    AnswerOption("Binged and feel out of control", "binge"),
    AnswerOption("Skipped logging because I didn't want to see it", "avoided")]
  const GuiltFeelings := [
    AnswerOption("Disappointed in myself", "disappointed"),
    AnswerOption("Like I ruined everything", "ruined"),
    AnswerOption("Physically uncomfortable", "uncomfortable"),
    AnswerOption("Numb, don't want to think about it", "numb")]

  function CheckInFlowOf(k: CheckInKind): CheckInFlow
  {
    match k
    case ProgressCheckIn => CheckInFlow("Progress Check-In", Supportive, [
      CheckInStep("How are you feeling about your weight progress this week?", WeightFeelings),
      CheckInStep("And how about your muscle/strength goals?", MuscleFeelings)])
    case CravingCheckIn => CheckInFlow("Craving SOS", Calm, [
      CheckInStep("What's pulling at you right now?", CravingTypes),
      CheckInStep("On a scale, how intense is this craving?", CravingIntensities)])
    case GuiltCheckIn => CheckInFlow("Let's Talk", Supportive, [
      CheckInStep("What happened?", GuiltEvents),
      CheckInStep("How are you feeling right now?", GuiltFeelings)])
  }

  predicate DistinctValues(opts: seq<AnswerOption>)
  {
    forall i, j :: 0 <= i < j < |opts| ==> opts[i].value != opts[j].value
  }

  /** Two answer values differ in length or in one of their first two letters. */
  predicate Apart(a: string, b: string)
  {
    |a| != |b| || (|a| >= 2 && |b| >= 2 && (a[0] != b[0] || a[1] != b[1]))
  }

  lemma ApartValuesAreDistinct(opts: seq<AnswerOption>)
    requires forall i, j :: 0 <= i < j < |opts| ==> Apart(opts[i].value, opts[j].value)
    ensures DistinctValues(opts)
  {
  }

  lemma AnswerValuesDistinct()
    ensures DistinctValues(WeightFeelings) && DistinctValues(MuscleFeelings)
    ensures DistinctValues(CravingTypes) && DistinctValues(CravingIntensities)
    ensures DistinctValues(GuiltEvents) && DistinctValues(GuiltFeelings)
  {
    var lists := [WeightFeelings, MuscleFeelings, CravingTypes, CravingIntensities, GuiltEvents, GuiltFeelings];
    forall n | 0 <= n < |lists|
      ensures DistinctValues(lists[n])
    {
      var o := lists[n];
      assert n == 0 || n == 1 || n == 2 || n == 3 || n == 4 || n == 5;
      forall i, j | 0 <= i < j < |o|
        ensures Apart(o[i].value, o[j].value)
      {
        assert i == 0 || i == 1 || i == 2;
      }
      ApartValuesAreDistinct(o);
    }
    assert DistinctValues(lists[0]) && DistinctValues(lists[1]) && DistinctValues(lists[2]);
    assert DistinctValues(lists[3]) && DistinctValues(lists[4]) && DistinctValues(lists[5]);
  }

  /** Every flow asks exactly two questions, and no question offers the same value twice. */
  lemma CheckInFlowsWellFormed(k: CheckInKind)
    ensures |CheckInFlowOf(k).steps| == 2
    ensures forall s :: 0 <= s < 2 ==> DistinctValues(CheckInFlowOf(k).steps[s].options)
  {
    AnswerValuesDistinct();
    var steps := CheckInFlowOf(k).steps;
    match k
    case ProgressCheckIn =>
      assert steps[0].options == WeightFeelings && steps[1].options == MuscleFeelings;
    case CravingCheckIn =>
      assert steps[0].options == CravingTypes && steps[1].options == CravingIntensities;
    case GuiltCheckIn =>
      assert steps[0].options == GuiltEvents && steps[1].options == GuiltFeelings;
  }
}
