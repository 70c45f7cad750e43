/** The app state hook (src/hooks/useAppState.js): the signed-in profile, the open day's
    food log, coins, the streak and the character popup, with the persisted store as a
    field that the actions write through to. */
module AppStateHook {
  import opened Types
  import opened Constants
  import Calculations

  // ---------------------------------------------------------------------------
  // Operations on a day's log by entry id

  /** The entries `prev.filter(f => f.id !== foodId)` keeps, taken from the back of the log. */
  function Kept(log: seq<FoodEntry>, id: string): seq<FoodEntry>
  {
    if log == [] then []
    else
      var last := log[|log| - 1];
      Kept(log[..|log| - 1], id) + (if last.id == id then [] else [last])
  }

  /** The entries the filter drops: those under the id. */
  function WithId(log: seq<FoodEntry>, id: string): (m: seq<FoodEntry>)
    ensures forall i :: 0 <= i < |m| ==> m[i].id == id
  {
    if log == [] then []
    else
      var last := log[|log| - 1];
      WithId(log[..|log| - 1], id) + (if last.id == id then [last] else [])
  }

  lemma {:induction false} KeptCounts(log: seq<FoodEntry>, id: string)
    ensures |Kept(log, id)| <= |log|
    ensures forall i :: 0 <= i < |Kept(log, id)| ==> Kept(log, id)[i].id != id
    ensures multiset(Kept(log, id)) + multiset(WithId(log, id)) == multiset(log)
  {
    if log != [] {
      var prefix, last := log[..|log| - 1], log[|log| - 1];
      KeptCounts(prefix, id);
      assert log == prefix + [last];
    }
  }

  /** `prev.filter(f => f.id !== foodId)`: no entry under the id is left, and the survivors
      together with the entries under the id are the log, copy for copy. Order is stated by
      RemoveDistributes. */
  function RemoveById(log: seq<FoodEntry>, id: string): (r: seq<FoodEntry>)
    ensures |r| <= |log|
    ensures forall i :: 0 <= i < |r| ==> r[i].id != id
    ensures multiset(r) + multiset(WithId(log, id)) == multiset(log)
  {
    KeptCounts(log, id);
    Kept(log, id)
  }

  lemma {:induction false} KeptDistributes(a: seq<FoodEntry>, b: seq<FoodEntry>, id: string)
    ensures Kept(a + b, id) == Kept(a, id) + Kept(b, id)
    decreases |b|
  {
    if b == [] {
      assert a + b == a;
    } else {
      var prefix, last := b[..|b| - 1], b[|b| - 1];
      var tail := if last.id == id then [] else [last];
      assert Kept(a + b, id) == Kept(a + prefix, id) + tail by {
        var ab := a + b;
        assert ab[..|ab| - 1] == a + prefix;
        assert ab[|ab| - 1] == last;
      }
      KeptDistributes(a, prefix, id);
      var x, y := Kept(a, id), Kept(prefix, id);
      assert (x + y) + tail == x + (y + tail);
    }
  }

  /** Removal works entry by entry, keeping the survivors in their order: removing from a
      concatenation is concatenating the removals, and a one-entry log loses its entry
      exactly when the entry carries the id. */
  lemma RemoveDistributes(a: seq<FoodEntry>, b: seq<FoodEntry>, id: string)
    ensures RemoveById(a + b, id) == RemoveById(a, id) + RemoveById(b, id)
    ensures forall e :: RemoveById([e], id) == if e.id == id then [] else [e]
  {
    KeptDistributes(a, b, id);
    forall e ensures RemoveById([e], id) == if e.id == id then [] else [e] {
      assert [e][..0] == [];
    }
  }

  /** An entry under another id keeps every one of its copies, so it survives when present. */
  lemma RemoveKeepsOtherIds(log: seq<FoodEntry>, id: string, e: FoodEntry)
    requires e.id != id
    ensures multiset(RemoveById(log, id))[e] == multiset(log)[e]
    ensures e in log ==> e in RemoveById(log, id)
  {
    var m := WithId(log, id);
    assert e !in m;
  }

  lemma {:induction false} KeptAbsent(log: seq<FoodEntry>, id: string)
    requires forall i :: 0 <= i < |log| ==> log[i].id != id
    ensures Kept(log, id) == log
  {
    if log != [] {
      var prefix := log[..|log| - 1];
      assert forall i :: 0 <= i < |prefix| ==> prefix[i] == log[i];
      KeptAbsent(prefix, id);
      assert log == prefix + [log[|log| - 1]];
    }
  }

  /** Removing an id no entry carries leaves the log as it was. */
  lemma RemoveAbsentIdKeepsLog(log: seq<FoodEntry>, id: string)
    requires forall e :: e in log ==> e.id != id
    ensures RemoveById(log, id) == log
  {
    assert forall i :: 0 <= i < |log| ==> log[i] in log;
    KeptAbsent(log, id);
  }

  /** Removing an entry just added under a fresh id gives back the log it was added to. */
  lemma RemoveUndoesAdd(log: seq<FoodEntry>, e: FoodEntry)
    requires forall f :: f in log ==> f.id != e.id
    ensures RemoveById(log + [e], e.id) == log
  {
    assert (log + [e])[..|log|] == log;
    RemoveAbsentIdKeepsLog(log, e.id);
  }

  /** `prev.map(f => f.id === foodId ? { ...f, confirmed: true } : f)`. The pointwise ensures
      only describes the map; ConfirmKeepsProjected and ConfirmIdempotent say what it means. */
  function ConfirmById(log: seq<FoodEntry>, id: string): (r: seq<FoodEntry>)
    ensures |r| == |log|
    ensures forall i :: 0 <= i < |log| ==>
      r[i] == if log[i].id == id then log[i].(confirmed := true) else log[i]
  {
    seq(|log|, i requires 0 <= i < |log| => if log[i].id == id then log[i].(confirmed := true) else log[i])
  }

  lemma {:induction false} TotalPointwise(a: seq<FoodEntry>, b: seq<FoodEntry>)
    requires |a| == |b|
    requires forall i :: 0 <= i < |a| ==> Calculations.EntryMacros(a[i]) == Calculations.EntryMacros(b[i])
    ensures Calculations.Total(a) == Calculations.Total(b)
    decreases |a|
  {
    if a != [] {
      TotalPointwise(a[..|a| - 1], b[..|b| - 1]);
    }
  }

  /** Confirming moves food from planned to eaten: the projected totals stay. */
  lemma ConfirmKeepsProjected(log: seq<FoodEntry>, id: string)
    ensures Calculations.SumMacros(ConfirmById(log, id), false) == Calculations.SumMacros(log, false)
  {
    TotalPointwise(ConfirmById(log, id), log);
  }

  lemma ConfirmIdempotent(log: seq<FoodEntry>, id: string)
    ensures ConfirmById(ConfirmById(log, id), id) == ConfirmById(log, id)
  {
  }

  /** The keys a food update can carry; `None` means the key is absent. */
  datatype EntryUpdate = EntryUpdate(
    id: Option<string>,
    name: Option<string>,
    calories: Option<Option<int>>,
    protein: Option<Option<int>>,
    carbs: Option<Option<int>>,
    fat: Option<Option<int>>,
    confirmed: Option<bool>,
    items: Option<seq<FoodItem>>)

  /** `{ ...f, ...updates }` on a food entry. */
  function ApplyEntryUpdate(f: FoodEntry, u: EntryUpdate): FoodEntry
  {
    FoodEntry(GetOr(u.id, f.id), GetOr(u.name, f.name),
              GetOr(u.calories, f.calories), GetOr(u.protein, f.protein),
              GetOr(u.carbs, f.carbs), GetOr(u.fat, f.fat),
              GetOr(u.confirmed, f.confirmed), GetOr(u.items, f.items))
  }

  /** `prev.map(f => f.id === foodId ? { ...f, ...updates } : f)`; the pointwise ensures
      describes the map, and UpdateWithoutNumbersKeepsProjected says what it means. */
  function UpdateById(log: seq<FoodEntry>, id: string, u: EntryUpdate): (r: seq<FoodEntry>)
    ensures |r| == |log|
    ensures forall i :: 0 <= i < |log| ==>
      r[i] == if log[i].id == id then ApplyEntryUpdate(log[i], u) else log[i]
  {
    seq(|log|, i requires 0 <= i < |log| => if log[i].id == id then ApplyEntryUpdate(log[i], u) else log[i])
  }

  /** An update that touches none of the four numbers leaves the projected totals alone. */
  lemma UpdateWithoutNumbersKeepsProjected(log: seq<FoodEntry>, id: string, u: EntryUpdate)
    requires u.calories.None? && u.protein.None? && u.carbs.None? && u.fat.None?
    ensures Calculations.SumMacros(UpdateById(log, id, u), false) == Calculations.SumMacros(log, false)
  {
    TotalPointwise(UpdateById(log, id, u), log);
  }

  // ---------------------------------------------------------------------------
  // getStats, as a specification

  /** Running sums of the stats loop. */
  datatype Tally = Tally(calories: int, protein: int, hitDays: nat, tracked: nat)

  function DaysIn(start: int, end: int): nat
  {
    if end < start then 0 else end - start + 1
  }

  /** The loop's sums after visiting the days `start..end`, one day at a time. */
  function WindowTally(h: History, start: int, end: int, proteinGoal: int): (t: Tally)
    ensures t.hitDays <= t.tracked <= DaysIn(start, end)
    decreases end - start
  {
    if end < start then Tally(0, 0, 0, 0)
    else
      var t := WindowTally(h, start, end - 1, proteinGoal);
      var dayLog := DayLog(h, end);
      if |dayLog| > 0 then
        var m := Calculations.SumMacros(dayLog, true);
        Tally(t.calories + m.calories, t.protein + m.protein,
              t.hitDays + (if Calculations.DidHitProtein(dayLog, proteinGoal) then 1 else 0),
              t.tracked + 1)
      else t
  }

  datatype Stats = Stats(
    totalCalories: int,
    totalProtein: int,
    proteinHitDays: nat,
    daysTracked: nat,
    targetCalories: int,
    deficit: int,
    proteinTarget: int)

  function StatsOf(t: Tally, goals: Macros): Stats
  {
    var target := goals.calories * t.tracked;
    Stats(t.calories, t.protein, t.hitDays, t.tracked, target, target - t.calories, goals.protein * t.tracked)
  }

  function WindowStats(h: History, start: int, end: int, goals: Macros): (s: Stats)
    ensures s.proteinHitDays <= s.daysTracked <= DaysIn(start, end)
    ensures s.deficit == s.targetCalories - s.totalCalories
  {
    StatsOf(WindowTally(h, start, end, goals.protein), goals)
  }

  /** A window with no non-empty day has all-zero stats. */
  lemma {:induction false} EmptyWindow(h: History, start: int, end: int, goals: Macros)
    requires forall d :: start <= d <= end ==> !Tracked(h, d)
    ensures WindowStats(h, start, end, goals) == Stats(0, 0, 0, 0, 0, 0, 0)
    decreases end - start
  {
    if start <= end {
      EmptyWindow(h, start, end - 1, goals);
      assert !Tracked(h, end);
    }
  }

  /** Splitting the window at any day splits the sums. */
  lemma {:induction false} WindowSplit(h: History, start: int, mid: int, end: int, g: int)
    requires start - 1 <= mid <= end
    ensures var a, b := WindowTally(h, start, mid, g), WindowTally(h, mid + 1, end, g);
      WindowTally(h, start, end, g) == Tally(a.calories + b.calories, a.protein + b.protein,
                                             a.hitDays + b.hitDays, a.tracked + b.tracked)
    decreases end - mid
  {
    if mid < end {
      WindowSplit(h, start, mid, end - 1, g);
    }
  }

  /** A day holding only planned food counts as tracked with nothing eaten, so it adds a
      full day's calorie target to the deficit. */
  lemma {:induction false} PlannedOnlyDayAddsFullDeficit(h: History, start: int, end: int, goals: Macros,
                                                         day: int, plans: seq<FoodEntry>)
    requires start <= day <= end
    requires !Tracked(h, day) && plans != []
    requires forall p :: p in plans ==> !p.confirmed
    ensures var before, after := WindowStats(h, start, end, goals), WindowStats(h[day := plans], start, end, goals);
      after.daysTracked == before.daysTracked + 1 &&
      after.totalCalories == before.totalCalories &&
      after.deficit == before.deficit + goals.calories
  {
    var h' := h[day := plans];
    TallyWithPlannedDay(h, start, end, goals.protein, day, plans);
    var t, t' := WindowTally(h, start, end, goals.protein), WindowTally(h', start, end, goals.protein);
    OneMoreTrackedDay(t, t', goals);
  }

  /** One more tracked day with nothing eaten raises the target, and so the deficit, by a
      day's calories. */
  lemma OneMoreTrackedDay(t: Tally, t': Tally, goals: Macros)
    requires t'.tracked == t.tracked + 1 && t'.calories == t.calories
    ensures StatsOf(t', goals).daysTracked == StatsOf(t, goals).daysTracked + 1
    ensures StatsOf(t', goals).totalCalories == StatsOf(t, goals).totalCalories
    ensures StatsOf(t', goals).deficit == StatsOf(t, goals).deficit + goals.calories
  {
    assert goals.calories * t'.tracked == goals.calories * t.tracked + goals.calories;
  }

  lemma {:induction false} TallyWithPlannedDay(h: History, start: int, end: int, g: int,
                                               day: int, plans: seq<FoodEntry>)
    requires !Tracked(h, day) && plans != []
    requires forall p :: p in plans ==> !p.confirmed
    ensures var t, t' := WindowTally(h, start, end, g), WindowTally(h[day := plans], start, end, g);
      t'.calories == t.calories && t'.protein == t.protein &&
      t'.tracked == t.tracked + (if start <= day <= end then 1 else 0)
    decreases end - start
  {
    if start <= end {
      TallyWithPlannedDay(h, start, end - 1, g, day, plans);
      if end == day {
        Calculations.SumMacrosAllPlanned(plans);
      } else {
        assert DayLog(h[day := plans], end) == DayLog(h, end);
      }
    }
  }

  // ---------------------------------------------------------------------------
  // The hook

  /** The character popup: shown with a mood, a message and the coins just won. */
  datatype Popup = Popup(show: bool, mood: Mood, message: string, coins: int)

  const HiddenPopup := Popup(false, Calm, "", 0)

  /** What `{ ...null, ...updates }` starts from: every key absent. */
  const EmptyProfile := UserProfile("", None, None, None, None, None, None,
                                    UnknownActivity, UnknownGoal, UnknownTier, false)

  class AppState {
    var user: Option<UserProfile>
    var foodLog: seq<FoodEntry>
    var currentDate: int
    var coins: int
    var streak: nat
    var character: Popup
    /** The persisted store: the day-keyed history, the coin balance and the profile. */
    var savedHistory: History
    var savedCoins: int
    var savedUser: Option<UserProfile>

    /** The open day's log and the coin balance are what the store holds. */
    predicate Synced()
      reads this
    {
      DayLog(savedHistory, currentDate) == foodLog && savedCoins == coins
    }

    /** The mount effect followed by the first date effect, given what the store holds. */
    constructor Load(storedUser: Option<UserProfile>, storedCoins: int, history: History, today: int)
      ensures user == (if storedUser.Some? && storedUser.value.onboardingComplete then storedUser else None)
      ensures coins == storedCoins && streak == Calculations.Streak(history, today)
      ensures currentDate == today && foodLog == DayLog(history, today)
      ensures character == HiddenPopup
      ensures savedHistory == history && savedCoins == storedCoins && savedUser == storedUser
      ensures Synced()
    {
      var s := Calculations.CalculateStreak(history, today);
      user := if storedUser.Some? && storedUser.value.onboardingComplete then storedUser else None;
      coins := storedCoins;
      streak := s;
      currentDate := today;
      foodLog := DayLog(history, today);
      character := HiddenPopup;
      savedHistory := history;
      savedCoins := storedCoins;
      savedUser := storedUser;
    }

    function DailyGoals(): (g: Macros)
      reads this
      ensures user.None? ==> g == Calculations.FallbackGoals
      ensures user.Some? ==> g == Calculations.DailyGoals(user.value)
    {
      if user.Some? then Calculations.DailyGoals(user.value) else Calculations.FallbackGoals
    }

    function WeeklyGoals(): (g: Macros)
      reads this
      ensures Calculations.MultipleOf(g, 7)
      ensures Calculations.DivideGoals(g, 7) == DailyGoals()
    {
      Calculations.WeeklyGoals(DailyGoals())
    }

    function MonthlyGoals(): (g: Macros)
      reads this
      ensures Calculations.MultipleOf(g, 30)
      ensures Calculations.DivideGoals(g, 30) == DailyGoals()
    {
      Calculations.MonthlyGoals(DailyGoals())
    }

    function Eaten(): Macros
      reads this
    {
      Calculations.SumMacros(foodLog, true)
    }

    function Planned(): Macros
      reads this
    {
      Calculations.SumMacros(Calculations.Unconfirmed(foodLog), false)
    }

    /** Everything on the day, eaten or planned. */
    function Projected(): (p: Macros)
      reads this
      ensures p == Plus(Eaten(), Planned())
    {
      Calculations.EatenPlusPlanned(foodLog);
      Calculations.SumMacros(foodLog, false)
    }

    /** Changing the open date reloads its log from the store. */
    method GoToDate(day: int)
      modifies this
      ensures currentDate == day && foodLog == DayLog(savedHistory, day)
      ensures user == old(user) && coins == old(coins) && streak == old(streak) && character == old(character)
      ensures savedHistory == old(savedHistory) && savedCoins == old(savedCoins) && savedUser == old(savedUser)
      ensures savedCoins == coins ==> Synced()
    {
      currentDate := day;
      foodLog := DayLog(savedHistory, day);
    }

    method UpdateUser(updates: ProfileUpdate)
      modifies this
      ensures user == Some(ApplyUpdate(GetOr(old(user), EmptyProfile), updates)) && savedUser == user
      ensures foodLog == old(foodLog) && currentDate == old(currentDate) && coins == old(coins)
      ensures streak == old(streak) && character == old(character)
      ensures savedHistory == old(savedHistory) && savedCoins == old(savedCoins)
    {
      user := Some(ApplyUpdate(GetOr(user, EmptyProfile), updates));
      savedUser := user;
    }

    method CompleteOnboarding(newUser: UserProfile)
      requires Synced()
      modifies this
      ensures user == Some(newUser) && savedUser == user
      ensures coins == old(coins) + CoinReward(FirstLog)
      ensures character == Popup(true, Excited, "Welcome! Let's do this!", CoinReward(FirstLog))
      ensures foodLog == old(foodLog) && currentDate == old(currentDate) && streak == old(streak)
      ensures savedHistory == old(savedHistory)
      ensures Synced()
    {
      savedUser := Some(newUser);
      user := Some(newUser);
      coins := coins + CoinReward(FirstLog);
      savedCoins := coins;
      character := Popup(true, Excited, "Welcome! Let's do this!", CoinReward(FirstLog));
    }

    /** Appends the food under a new id; eaten food earns coins, planned food does not. */
    method AddFood(food: FoodEntry, asPlanned: bool, newId: string) returns (newFood: FoodEntry)
      requires Synced()
      modifies this
      ensures newFood == food.(id := newId, confirmed := !asPlanned)
      ensures foodLog == old(foodLog) + [newFood]
      ensures savedHistory == old(savedHistory)[currentDate := foodLog]
      ensures coins == old(coins) + (if asPlanned then 0 else CoinReward(LogMeal))
      ensures character == if asPlanned then Popup(true, Calm, "Planned!", 0)
                           else Popup(true, Happy, "Logged!", CoinReward(LogMeal))
      ensures user == old(user) && currentDate == old(currentDate) && streak == old(streak)
      ensures savedUser == old(savedUser)
      ensures Synced()
    {
      newFood := food.(id := newId, confirmed := !asPlanned);
      foodLog := foodLog + [newFood];
      savedHistory := savedHistory[currentDate := foodLog];
      if !asPlanned {
        coins := coins + CoinReward(LogMeal);
        savedCoins := coins;
        character := Popup(true, Happy, "Logged!", CoinReward(LogMeal));
      } else {
        character := Popup(true, Calm, "Planned!", 0);
      }
    }

    /** Marks every entry with the id eaten and pays the confirm reward, found or not. */
    method ConfirmFood(foodId: string)
      requires Synced()
      modifies this
      ensures foodLog == ConfirmById(old(foodLog), foodId)
      ensures savedHistory == old(savedHistory)[currentDate := foodLog]
      ensures coins == old(coins) + CoinReward(ConfirmPlanned)
      ensures character == Popup(true, Happy, "Nice!", CoinReward(ConfirmPlanned))
      ensures Calculations.SumMacros(foodLog, false) == Calculations.SumMacros(old(foodLog), false)
      ensures user == old(user) && currentDate == old(currentDate) && streak == old(streak)
      ensures savedUser == old(savedUser)
      ensures Synced()
    {
      var updated := ConfirmById(foodLog, foodId);
      ConfirmKeepsProjected(foodLog, foodId);
      foodLog := updated;
      savedHistory := savedHistory[currentDate := updated];
      coins := coins + CoinReward(ConfirmPlanned);
      savedCoins := coins;
      character := Popup(true, Happy, "Nice!", CoinReward(ConfirmPlanned));
    }

    method RemoveFood(foodId: string)
      requires Synced()
      modifies this
      ensures foodLog == RemoveById(old(foodLog), foodId)
      ensures savedHistory == old(savedHistory)[currentDate := foodLog]
      ensures user == old(user) && currentDate == old(currentDate) && coins == old(coins)
      ensures streak == old(streak) && character == old(character) && savedUser == old(savedUser)
      ensures Synced()
    {
      foodLog := RemoveById(foodLog, foodId);
      savedHistory := savedHistory[currentDate := foodLog];
    }

    method UpdateFood(foodId: string, updates: EntryUpdate)
      requires Synced()
      modifies this
      ensures foodLog == UpdateById(old(foodLog), foodId, updates)
      ensures savedHistory == old(savedHistory)[currentDate := foodLog]
      ensures user == old(user) && currentDate == old(currentDate) && coins == old(coins)
      ensures streak == old(streak) && character == old(character) && savedUser == old(savedUser)
      ensures Synced()
    {
      foodLog := UpdateById(foodLog, foodId, updates);
      savedHistory := savedHistory[currentDate := foodLog];
    }

    method ShowCharacter(mood: Mood, message: string, coinsAwarded: int)
      modifies this
      ensures character == Popup(true, mood, message, coinsAwarded)
      ensures user == old(user) && foodLog == old(foodLog) && currentDate == old(currentDate)
      ensures coins == old(coins) && streak == old(streak)
      ensures savedHistory == old(savedHistory) && savedCoins == old(savedCoins) && savedUser == old(savedUser)
    {
      character := Popup(true, mood, message, coinsAwarded);
    }

    /** The auto-hide timer: only `show` changes. */
    method HideCharacter()
      modifies this
      ensures character == old(character).(show := false)
      ensures user == old(user) && foodLog == old(foodLog) && currentDate == old(currentDate)
      ensures coins == old(coins) && streak == old(streak)
      ensures savedHistory == old(savedHistory) && savedCoins == old(savedCoins) && savedUser == old(savedUser)
    {
      character := character.(show := false);
    }

    /** Adds any amount and returns the new balance; the popup shows only with a message. */
    method AwardCoins(amount: int, mood: Mood, message: string) returns (newCoins: int)
      requires Synced()
      modifies this
      ensures newCoins == old(coins) + amount && coins == newCoins
      ensures character == if message != "" then Popup(true, mood, message, amount) else old(character)
      ensures user == old(user) && foodLog == old(foodLog) && currentDate == old(currentDate)
      ensures streak == old(streak) && savedHistory == old(savedHistory) && savedUser == old(savedUser)
      ensures Synced()
    {
      newCoins := coins + amount;
      coins := newCoins;
      savedCoins := newCoins;
      if message != "" {
        character := Popup(true, mood, message, amount);
      }
    }

    /** Walks the stored history from `startDate` to `endDate`, both included. */
    method GetStats(startDate: int, endDate: int) returns (stats: Stats)
      ensures stats == WindowStats(savedHistory, startDate, endDate, DailyGoals())
    {
      var history := savedHistory;
      var goals := DailyGoals();
      var totalCalories, totalProtein := 0, 0;
      var proteinHitDays, daysTracked := 0, 0;
      var current := startDate;
      while current <= endDate
        invariant startDate <= current <= if startDate <= endDate + 1 then endDate + 1 else startDate
        invariant Tally(totalCalories, totalProtein, proteinHitDays, daysTracked)
                  == WindowTally(history, startDate, current - 1, goals.protein)
        decreases endDate - current
      {
        var dayLog := DayLog(history, current);
        if |dayLog| > 0 {
          var dayMacros := Calculations.SumMacros(dayLog, true);
          totalCalories := totalCalories + dayMacros.calories;
          totalProtein := totalProtein + dayMacros.protein;
          daysTracked := daysTracked + 1;
          if Calculations.DidHitProtein(dayLog, goals.protein) {
            proteinHitDays := proteinHitDays + 1;
          }
        }
        current := current + 1;
      }
      var targetCalories := goals.calories * daysTracked;
      stats := Stats(totalCalories, totalProtein, proteinHitDays, daysTracked,
                     targetCalories, targetCalories - totalCalories, goals.protein * daysTracked);
    }
  }
}
