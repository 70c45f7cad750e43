/** The coach's canned replies (src/utils/coachResponses.js): the three check-in responses,
    the event encouragement and the greeting. Texts are abstracted to tags that keep every
    figure a text quotes; the random pick and the clock become parameters. */
module Coach {
  import opened Types
  import opened Constants
  import Calculations

  /** `responses[i]`: the answer to step i, or undefined when there is none. */
  function Answer(responses: seq<string>, i: nat): (a: Option<string>)
    ensures a.Some? <==> i < |responses|
    ensures a.Some? ==> a.value == responses[i]
  {
    if i < |responses| then Some(responses[i]) else None
  }

  // ---------------------------------------------------------------------------
  // Progress check-in

  /** The stats object; a missing field takes its destructuring default. */
  datatype ProgressStats = ProgressStats(
    deficit: Option<int>, proteinHitDays: Option<int>, totalDays: Option<int>, streak: Option<int>)

  /** The message variants, with the figures each one quotes. */
  datatype ProgressMessage =
    | ConsistentForDays(streak: int)
    | OnTrackFor(deficit: int, projectedLoss: real)
    | TrustTheProcess
    | DoingTheWork(shownLoss: Option<real>)
    | ThanksForCheckingIn

  datatype ProgressTip =
    | NonScaleWins
    | AddResistanceTraining
    | KeepHittingProtein(hitDays: int, totalDays: int)
    | GreatFlow
    | KeepProteinHigh
    | SmallConsistentActions

  datatype ProgressReply = ProgressReply(message: ProgressMessage, tip: ProgressTip, mood: Mood)

  function GetProgressResponse(responses: seq<string>, stats: ProgressStats): (r: ProgressReply)
    ensures r.mood == Supportive <==>
              Answer(responses, 0) !in {Some("okay"), Some("good"), Some("great")}
    ensures r.mood == Calm <==> Answer(responses, 0) == Some("okay")
    ensures r.mood == Proud <==> Answer(responses, 0) in {Some("good"), Some("great")}
    ensures r.message.OnTrackFor? ==>
              r.message.deficit > 0 &&
              r.message.projectedLoss == Calculations.ProjectedFatLoss(r.message.deficit)
    ensures r.message.DoingTheWork? && r.message.shownLoss.Some? ==>
              GetOr(stats.deficit, 0) > 0 &&
              r.message.shownLoss.value == Calculations.ProjectedFatLoss(GetOr(stats.deficit, 0))
    ensures Answer(responses, 0) == Some("frustrated") ==>
              r.message == ConsistentForDays(GetOr(stats.streak, 0)) && r.tip == NonScaleWins
    ensures Answer(responses, 0) == Some("okay") ==>
              (r.message.OnTrackFor? <==> GetOr(stats.deficit, 0) > 0) &&
              (r.tip == AddResistanceTraining <==> Answer(responses, 1) == Some("neglected")) &&
              (r.tip != AddResistanceTraining ==>
                 r.tip == KeepHittingProtein(GetOr(stats.proteinHitDays, 0), GetOr(stats.totalDays, 7)))
    ensures Answer(responses, 0) in {Some("good"), Some("great")} ==>
              r.message.DoingTheWork? &&
              (r.message.shownLoss.Some? <==> GetOr(stats.deficit, 0) > 0) &&
              (r.tip == GreatFlow <==> Answer(responses, 1) == Some("strong")) &&
              (r.tip != GreatFlow ==> r.tip == KeepProteinHigh)
    ensures r.mood == Supportive && Answer(responses, 0) != Some("frustrated") ==>
              r == ProgressReply(ThanksForCheckingIn, SmallConsistentActions, Supportive)
  {
    var weightFeeling := Answer(responses, 0);
    var muscleFeeling := Answer(responses, 1);
    var deficit := GetOr(stats.deficit, 0);
    var projectedLoss := Calculations.ProjectedFatLoss(deficit);
    if weightFeeling == Some("frustrated") then
      ProgressReply(ConsistentForDays(GetOr(stats.streak, 0)), NonScaleWins, Supportive)
    else if weightFeeling == Some("okay") then
      ProgressReply(
        if deficit > 0 then OnTrackFor(deficit, projectedLoss) else TrustTheProcess,
        if muscleFeeling == Some("neglected") then AddResistanceTraining
        else KeepHittingProtein(GetOr(stats.proteinHitDays, 0), GetOr(stats.totalDays, 7)),
        Calm)
    else if weightFeeling == Some("good") || weightFeeling == Some("great") then
      ProgressReply(
        DoingTheWork(if deficit > 0 then Some(projectedLoss) else None),
        if muscleFeeling == Some("strong") then GreatFlow else KeepProteinHigh,
        Proud)
    else
      ProgressReply(ThanksForCheckingIn, SmallConsistentActions, Supportive)
  }

  /** Every weight answer the progress flow offers gets a reply of its own, not the fallback. */
  lemma OfferedWeightFeelingsAreAnswered(responses: seq<string>, stats: ProgressStats)
    requires |responses| > 0
    requires exists o :: o in WeightFeelings && o.value == responses[0]
    ensures GetProgressResponse(responses, stats).message != ThanksForCheckingIn
  {
  }

  /** The muscle answer only chooses the tip: the message and the mood follow the weight
      answer alone. */
  lemma MuscleFeelingOnlyChangesTip(weight: string, muscle1: string, muscle2: string, stats: ProgressStats)
    ensures GetProgressResponse([weight, muscle1], stats).message
            == GetProgressResponse([weight, muscle2], stats).message
    ensures GetProgressResponse([weight, muscle1], stats).mood
            == GetProgressResponse([weight, muscle2], stats).mood
  {
  }

  /** With no stats at all nothing is projected and the protein tip reads 0 of 7 days. */
  lemma EmptyStatsDefaults(weight: string)
    ensures var none := ProgressStats(None, None, None, None);
      GetProgressResponse([weight], none).message !in {OnTrackFor(0, 0.0), DoingTheWork(Some(0.0))} &&
      (weight == "okay" ==>
         GetProgressResponse([weight], none) == ProgressReply(TrustTheProcess, KeepHittingProtein(0, 7), Calm)) &&
      (weight == "good" ==>
         GetProgressResponse([weight], none) == ProgressReply(DoingTheWork(None), KeepProteinHigh, Proud))
  {
  }

  /** A positive deficit below 175 kcal is still quoted, as "about 0.0 lbs". */
  lemma SmallDeficitQuotesZeroPounds()
    ensures GetProgressResponse(["okay"], ProgressStats(Some(100), None, None, None)).message
            == OnTrackFor(100, 0.0)
  {
    assert (100 as real / Calculations.CaloriesPerPound * 10.0 + 0.5).Floor == 0;
  }

  /** The check-in modal's figures: a 2500 kcal week projects 0.7 lbs. */
  lemma ModalStatsProjection(streak: int)
    ensures GetProgressResponse(["good", "strong"], ProgressStats(Some(2500), Some(5), Some(7), Some(streak)))
            == ProgressReply(DoingTheWork(Some(0.7)), GreatFlow, Proud)
  {
    assert (2500 as real / Calculations.CaloriesPerPound * 10.0 + 0.5).Floor == 7;
  }

  // ---------------------------------------------------------------------------
  // Craving check-in

  datatype Technique = SweetTechnique | SaltyTechnique | SpecificTechnique | EmotionalTechnique

  /** `techniques[cravingType] || techniques.emotional`. */
  function TechniqueFor(cravingType: Option<string>): Technique
  {
    match cravingType
    case Some("sweet") => SweetTechnique
    case Some("salty") => SaltyTechnique
    case Some("specific") => SpecificTechnique
    case _ => EmotionalTechnique
  }

  /** The technique's message and tip, the strong-craving advice appended to the tip or not,
      and the calm mood. */
  datatype CravingReply = CravingReply(technique: Technique, strongAdvice: bool, mood: Mood)

  function GetCravingResponse(responses: seq<string>): (r: CravingReply)
    ensures r.mood == Calm
    ensures r.strongAdvice <==> Answer(responses, 1) == Some("strong")
    ensures r.technique != EmotionalTechnique ==>
              Answer(responses, 0) in {Some("sweet"), Some("salty"), Some("specific")}
  {
    CravingReply(TechniqueFor(Answer(responses, 0)), Answer(responses, 1) == Some("strong"), Calm)
  }

  /** The four craving answers on offer get four different techniques, each its namesake. */
  lemma CravingTypesGetTheirOwnTechnique()
    ensures forall i, j :: 0 <= i < j < |CravingTypes| ==>
              TechniqueFor(Some(CravingTypes[i].value)) != TechniqueFor(Some(CravingTypes[j].value))
    ensures TechniqueFor(Some(CravingTypes[0].value)) == SweetTechnique
    ensures TechniqueFor(Some(CravingTypes[1].value)) == SaltyTechnique
    ensures TechniqueFor(Some(CravingTypes[2].value)) == SpecificTechnique
    ensures TechniqueFor(Some(CravingTypes[3].value)) == EmotionalTechnique
  {
  }

  /** The tip changes only by the strong-craving advice: the technique depends on the first
      answer alone, and advice is added only for the intensity `strong`. */
  lemma IntensityOnlyAddsAdvice(cravingType: string, intensity: string)
    ensures GetCravingResponse([cravingType, intensity]).technique == GetCravingResponse([cravingType]).technique
    ensures !GetCravingResponse([cravingType]).strongAdvice
    ensures GetCravingResponse([cravingType, intensity]).strongAdvice <==> intensity == CravingIntensities[2].value
  {
  }

  // ---------------------------------------------------------------------------
  // Guilt check-in

  datatype GuiltStats = GuiltStats(weekDeficit: Option<int>)

  datatype GuiltMessage =
    | BingeCourage
    | NotRuined(weekDeficit: Option<int>)   // the deficit is quoted only when positive
    | ReadyToFaceIt
    | TinyBlip

  /** The message, the mood, and whether the professional-help note is attached. */
  datatype GuiltReply = GuiltReply(message: GuiltMessage, mood: Mood, professionalHelp: bool)

  function GetGuiltResponse(responses: seq<string>, stats: GuiltStats): (r: GuiltReply)
    ensures r.professionalHelp <==> Answer(responses, 0) == Some("binge")
    ensures r.mood == Calm <==> r.message.NotRuined?
    ensures r.mood == Calm || r.mood == Supportive
    ensures r.message.NotRuined? && r.message.weekDeficit.Some? ==>
              r.message.weekDeficit.value > 0 && stats.weekDeficit == r.message.weekDeficit
    ensures r.message.NotRuined? ==> (r.message.weekDeficit.Some? <==> GetOr(stats.weekDeficit, 0) > 0)
  {
    var whatHappened := Answer(responses, 0);
    var howFeeling := Answer(responses, 1);
    var weekDeficit := GetOr(stats.weekDeficit, 0);
    if whatHappened == Some("binge") then
      GuiltReply(BingeCourage, Supportive, true)
    else if howFeeling == Some("ruined") then
      GuiltReply(NotRuined(if weekDeficit > 0 then Some(weekDeficit) else None), Calm, false)
    else if whatHappened == Some("avoided") then
      GuiltReply(ReadyToFaceIt, Supportive, false)
    else
      GuiltReply(TinyBlip, Supportive, false)
  }

  /** The guilt replies are ranked: a binge beats every feeling, feeling ruined beats having
      avoided logging, and only what is left is a tiny blip. */
  lemma GuiltPriority(whatHappened: string, howFeeling: string, stats: GuiltStats)
    ensures var r := GetGuiltResponse([whatHappened, howFeeling], stats);
      (r.message == BingeCourage <==> whatHappened == "binge") &&
      (r.message.NotRuined? <==> whatHappened != "binge" && howFeeling == "ruined") &&
      (r.message == ReadyToFaceIt <==> whatHappened == "avoided" && howFeeling != "ruined") &&
      (r.message == TinyBlip <==>
         whatHappened !in {"binge", "avoided"} && howFeeling != "ruined")
  {
  }

  /** Each answer pair the guilt flow offers gets the reply its ranking names. */
  lemma GuiltFlowAnswersCovered(i: nat, j: nat, stats: GuiltStats)
    requires i < |GuiltEvents| && j < |GuiltFeelings|
    ensures var r := GetGuiltResponse([GuiltEvents[i].value, GuiltFeelings[j].value], stats);
      (i == 2 ==> r.message == BingeCourage) &&
      (i != 2 && j == 1 ==> r.message.NotRuined?) &&
      (i == 3 && j != 1 ==> r.message == ReadyToFaceIt) &&
      (i < 2 && j != 1 ==> r.message == TinyBlip)
  {
    GuiltPriority(GuiltEvents[i].value, GuiltFeelings[j].value, stats);
  }

  // ---------------------------------------------------------------------------
  // Encouragement

  datatype EventKind = OnFirstLog | OnMealLogged | OnProteinHit | OnUnderBudget | OnStreakMilestone | OnPlanned | OnWelcomeBack

  /** `messages[event] || messages.mealLogged`. */
  function EventOf(event: string): EventKind
  {
    match event
    case "firstLog" => OnFirstLog
    case "proteinHit" => OnProteinHit
    case "underBudget" => OnUnderBudget
    case "streakMilestone" => OnStreakMilestone
    case "planned" => OnPlanned
    case "welcomeBack" => OnWelcomeBack
    case _ => OnMealLogged
  }

  /** How many message variants each event has. */
  function VariantCount(kind: EventKind): (n: nat)
    ensures n == 3 || n == 4
  {
    if kind == OnMealLogged then 4 else 3
  }

  function EventMood(kind: EventKind): Mood
  {
    match kind
    case OnFirstLog => Excited
    case OnMealLogged => Happy
    case OnProteinHit => Proud
    case OnUnderBudget => Proud
    case OnStreakMilestone => Excited
    case OnPlanned => Calm
    case OnWelcomeBack => Happy
  }

  /** `Math.floor(random * n)` for a `Math.random()` draw in [0, 1). */
  function PickIndex(random: real, n: nat): (i: nat)
    requires 0.0 <= random < 1.0
    requires n > 0
    ensures i < n
    ensures i as real <= random * n as real < i as real + 1.0
  {
    assert random * n as real < n as real;
    (random * n as real).Floor
  }

  /** The event's variant picked and its mood; a streak milestone quotes `context.streak`. */
  datatype Encouragement = Encouragement(kind: EventKind, variant: nat, streak: Option<int>, mood: Mood)

  function GetEncouragementMessage(event: string, contextStreak: Option<int>, random: real): (e: Encouragement)
    requires 0.0 <= random < 1.0
    ensures e.variant < VariantCount(e.kind)
    ensures e.mood == EventMood(e.kind)
    ensures e.streak.Some? ==> e.kind == OnStreakMilestone && e.streak == contextStreak
    ensures random < 0.25 ==> e.variant == 0
  {
    var kind := EventOf(event);
    Encouragement(kind, PickIndex(random, VariantCount(kind)),
                  if kind == OnStreakMilestone then contextStreak else None, EventMood(kind))
  }

  /** Every event the table does not name behaves as a logged meal. */
  lemma UnknownEventIsMealLogged(event: string, contextStreak: Option<int>, random: real)
    requires 0.0 <= random < 1.0
    requires event !in {"firstLog", "mealLogged", "proteinHit", "underBudget", "streakMilestone", "planned", "welcomeBack"}
    ensures GetEncouragementMessage(event, contextStreak, random)
            == GetEncouragementMessage("mealLogged", None, random)
  {
  }

  /** Every variant of every event is reachable by some draw. */
  lemma EveryVariantReachable(kind: EventKind, v: nat)
    requires v < VariantCount(kind)
    ensures var random := v as real / VariantCount(kind) as real;
      0.0 <= random < 1.0 && PickIndex(random, VariantCount(kind)) == v
  {
    var n := VariantCount(kind) as real;
    assert v as real / n * n == v as real;
  }

  // ---------------------------------------------------------------------------
  // Greeting

  datatype TimeOfDay = Morning | Afternoon | Evening

  function TimeOfDayAt(hour: int): (t: TimeOfDay)
    ensures t == Morning <==> hour < 12
    ensures t == Afternoon <==> 12 <= hour < 17
    ensures t == Evening <==> hour >= 17
  {
    if hour < 12 then Morning else if hour < 17 then Afternoon else Evening
  }

  datatype GreetingStats = GreetingStats(streak: Option<int>, todayCalories: Option<int>, dailyGoal: Option<int>)

  datatype GreetingLine = HowCanIHelp | StreakStrong(days: int) | WhatsOnYourMind | ReadyToPlan | HowsTheDay

  datatype Greeting = Greeting(time: TimeOfDay, line: GreetingLine)

  /** The three candidate greetings, in order. */
  function GreetingLines(stats: GreetingStats): (lines: seq<GreetingLine>)
    ensures |lines| == 3
    ensures lines[1].StreakStrong? <==> GetOr(stats.streak, 0) > 7
    ensures lines[1].StreakStrong? ==> lines[1].days == GetOr(stats.streak, 0)
    ensures lines[2] == ReadyToPlan <==> GetOr(stats.todayCalories, 0) == 0
  {
    var streak := GetOr(stats.streak, 0);
    [HowCanIHelp,
     if streak > 7 then StreakStrong(streak) else WhatsOnYourMind,
     if GetOr(stats.todayCalories, 0) == 0 then ReadyToPlan else HowsTheDay]
  }

  function GetCoachGreeting(stats: GreetingStats, hour: int, random: real): (g: Greeting)
    requires 0.0 <= random < 1.0
    ensures g.time == TimeOfDayAt(hour)
    ensures g.line in GreetingLines(stats)
  {
    Greeting(TimeOfDayAt(hour), GreetingLines(stats)[PickIndex(random, 3)])
  }

  /** The daily goal is read but never changes the greeting. */
  lemma GreetingIgnoresDailyGoal(stats: GreetingStats, goal: Option<int>, hour: int, random: real)
    requires 0.0 <= random < 1.0
    ensures GetCoachGreeting(stats.(dailyGoal := goal), hour, random) == GetCoachGreeting(stats, hour, random)
  {
  }

  /** A long streak is mentioned only by the middle greeting, picked for draws in [1/3, 2/3). */
  lemma StreakGreetingDraws(stats: GreetingStats, hour: int, random: real)
    requires 0.0 <= random < 1.0
    requires GetOr(stats.streak, 0) > 7
    ensures GetCoachGreeting(stats, hour, random).line.StreakStrong? <==> 1.0 / 3.0 <= random < 2.0 / 3.0
  {
  }
}
