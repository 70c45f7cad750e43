/** Records shared by the goal engine, the app state hook and the onboarding wizard.
    A JavaScript `null`/`undefined` field is `None`; an enum key that is not in its
    table is the `Unknown…` case of its datatype. */
module Types {

  datatype Option<+T> = None | Some(value: T)

  function GetOr<T>(o: Option<T>, default: T): T
  {
    if o.Some? then o.value else default
  }

  /** JavaScript truthiness of a nullable number: `null` and `0` are both falsy. */
  predicate Truthy(n: Option<int>)
  {
    n.Some? && n.value != 0
  }

  datatype Sex = Male | Female

  /** Keys of the activity table, plus every other string. */
  datatype ActivityLevel = Sedentary | Light | ModeratelyActive | Active | Athlete | UnknownActivity

  /** Keys of the goal table, plus every other string. */
  datatype GoalKind = LoseFast | Lose | LoseSlow | Maintain | GainSlow | Gain | UnknownGoal

  /** Keys of the protein table, plus every other string. */
  datatype ProteinTier = LowProtein | ModerateProtein | HighProtein | UnknownTier

  /** The user profile: height in inches, weights in pounds, age in years. */
  datatype UserProfile = UserProfile(
    name: string,
    age: Option<int>,
    sex: Option<Sex>,
    height: Option<int>,
    weight: Option<int>,
    goalWeight: Option<int>,
    bodyFat: Option<int>,
    activityLevel: ActivityLevel,
    goal: GoalKind,
    proteinTarget: ProteinTier,
    onboardingComplete: bool)

  /** An object literal `updates` spread over a profile: `None` means the key is absent;
      for a nullable field `Some(None)` sets it to `null`. */
  datatype ProfileUpdate = ProfileUpdate(
    name: Option<string>,
    age: Option<Option<int>>,
    sex: Option<Option<Sex>>,
    height: Option<Option<int>>,
    weight: Option<Option<int>>,
    goalWeight: Option<Option<int>>,
    bodyFat: Option<Option<int>>,
    activityLevel: Option<ActivityLevel>,
    goal: Option<GoalKind>,
    proteinTarget: Option<ProteinTier>)

  const NoUpdate := ProfileUpdate(None, None, None, None, None, None, None, None, None, None)

  /** `{ ...prev, ...updates }` on a profile. The per-field ensures describes the spread;
      ApplyUpdateIdempotent states what it means. */
  function ApplyUpdate(p: UserProfile, u: ProfileUpdate): (q: UserProfile)
    ensures q.onboardingComplete == p.onboardingComplete
    ensures q.name == GetOr(u.name, p.name) && q.age == GetOr(u.age, p.age)
    ensures q.sex == GetOr(u.sex, p.sex) && q.height == GetOr(u.height, p.height)
    ensures q.weight == GetOr(u.weight, p.weight) && q.goalWeight == GetOr(u.goalWeight, p.goalWeight)
    ensures q.bodyFat == GetOr(u.bodyFat, p.bodyFat)
    ensures q.activityLevel == GetOr(u.activityLevel, p.activityLevel)
    ensures q.goal == GetOr(u.goal, p.goal) && q.proteinTarget == GetOr(u.proteinTarget, p.proteinTarget)
  {
    UserProfile(
      GetOr(u.name, p.name), GetOr(u.age, p.age), GetOr(u.sex, p.sex),
      GetOr(u.height, p.height), GetOr(u.weight, p.weight), GetOr(u.goalWeight, p.goalWeight),
      GetOr(u.bodyFat, p.bodyFat), GetOr(u.activityLevel, p.activityLevel),
      GetOr(u.goal, p.goal), GetOr(u.proteinTarget, p.proteinTarget), p.onboardingComplete)
  }

  /** Spreading the same updates twice changes nothing more; spreading no keys changes nothing. */
  lemma ApplyUpdateIdempotent(p: UserProfile, u: ProfileUpdate)
    ensures ApplyUpdate(ApplyUpdate(p, u), u) == ApplyUpdate(p, u)
    ensures ApplyUpdate(p, NoUpdate) == p
  {
  }

  /** One component of a meal's breakdown. */
  datatype FoodItem = FoodItem(name: string, calories: int, protein: int, carbs: int, fat: int)

  /** A logged or planned food; a missing number is `None`. `confirmed == false` means planned. */
  datatype FoodEntry = FoodEntry(
    id: string,
    name: string,
    calories: Option<int>,
    protein: Option<int>,
    carbs: Option<int>,
    fat: Option<int>,
    confirmed: bool,
    items: seq<FoodItem>)

  /** `{ calories, protein, carbs, fat }`: goals and totals alike. */
  datatype Macros = Macros(calories: int, protein: int, carbs: int, fat: int)

  const Zero := Macros(0, 0, 0, 0)

  function Plus(a: Macros, b: Macros): Macros
  {
    Macros(a.calories + b.calories, a.protein + b.protein, a.carbs + b.carbs, a.fat + b.fat)
  }

  /** Date-keyed history; a day number stands for a date key. */
  type History = map<int, seq<FoodEntry>>

  /** `history[dateKey] || []`: an absent day reads as an empty day. */
  function DayLog(h: History, day: int): seq<FoodEntry>
  {
    if day in h then h[day] else []
  }

  predicate Tracked(h: History, day: int)
  {
    |DayLog(h, day)| > 0
  }
}
