# Nutri-app core in Dafny

This project models the core of a React nutrition tracker. The tracker turns a user profile into daily calorie and macro goals. It keeps a food log per calendar day, in which each entry is either eaten (confirmed) or planned. It rewards logging with coins, counts a streak of logged days, and shows progress windows with a net score. A short onboarding wizard collects the profile, and a canned "coach" answers check-ins.

The model has one module per core file:

- `Types` (types.dfy) holds the records the program passes around: the profile, food entries, macro totals, the day-keyed history, and JavaScript's `x || default` idiom (`GetOr`, `Truthy`).
- `JsMath` (jsmath.dfy) holds the JavaScript arithmetic the model needs:
  - `Math.round`, as floor of x + 0.5;
  - the truncating `%`;
  - numbers that may become `NaN` or `Infinity` when divided.
- `Constants` (constants.js) holds the activity, goal and protein tables, the default user, the coin rewards, the sample foods and the check-in flows.
- `Calculations` (calculations.js) holds the pure functions: BMR, TDEE, the calorie target, the macro split, daily, weekly and monthly goals, the progress score, projected fat loss, macro sums, remaining macros, the streak, and the protein and budget checks of a day.
- `AppStateHook` (useAppState.js) is the state hook as a class `AppState`:
  - its fields are the React state variables plus the persisted store (`savedUser`, `savedCoins`, `savedHistory`);
  - every action method states the new state and that the store stays in step with it (`Synced`);
  - `getStats` is a loop, proved against a window-tally specification.
- `Screens` (App.jsx) holds the arithmetic of the home and progress screens: goals per timeframe, the headline value, ring and bar progress, "Remaining", the stats window, the protein hit rate and the net score.
- `OnboardingWizard` (Onboarding.jsx) covers the wizard:
  - the step list, the animated Continue/Back transitions and the progress bar;
  - the per-step `canContinue` guards;
  - `parseInt`, and the feet/inches height boxes;
  - the protein preview;
  - the class `Wizard`.
- `Coach` (coachResponses.js) holds the progress, craving and guilt check-in replies, the encouragement messages and the greeting. Reply texts are replaced by tags that carry the numbers the texts quote.

Days are integers: a history maps a day number to that day's log. Today's date, the hour, `Math.random()` and `Date.now()` ids are parameters.

## Model

| member | source | states |
|---|---|---|
| Types.ApplyUpdate | src/hooks/useAppState.js:82 | spreading an update over a profile takes each field from the update when present and keeps the old value otherwise; the onboarding flag is never touched |
| Types.ApplyUpdateIdempotent | src/hooks/useAppState.js:82 | applying the same update twice equals applying it once, and an empty update changes nothing |
| JsMath.Round | src/utils/calculations.js:32 | `Math.round` returns the integer within half a unit of x, rounding halves up |
| JsMath.RoundOfInteger | src/utils/calculations.js:43 | rounding an integer (tdee minus an integer deficit) returns it unchanged |
| JsMath.RoundMonotone | src/utils/calculations.js:66 | rounding preserves order |
| JsMath.Rem | src/components/Onboarding.jsx:320 | JavaScript `%` keeps the dividend's sign, has magnitude below the divisor, and satisfies a = trunc(a/b)*b + r |
| Constants.ActivityMultiplier | src/data/constants.js:20-26 | exactly the five known activity levels have a multiplier |
| Constants.ActivityMultipliersIncrease | src/data/constants.js:20-26 | the multipliers strictly increase from sedentary to extra active |
| Constants.GoalDeficit | src/data/constants.js:28-35 | exactly the known goals have a deficit entry |
| Constants.GoalDeficitsDecrease | src/data/constants.js:28-35 | deficits strictly decrease from aggressive loss to bulk, and only maintain has deficit 0 |
| Constants.ProteinMultiplier | src/data/constants.js:37-41 | low, moderate and high protein are 0.8, 1.0 and 1.2 g per pound; nothing else has an entry |
| Constants.DefaultUserKeysAreInTables | src/data/constants.js:43-55 | the default user's activity, goal and protein keys are in the tables, and weight, height, age and sex are unset |
| Constants.CoinReward | src/data/constants.js:57-67 | every reward is positive; logging and confirming a meal pay 5, a first log and a check-in pay 10 |
| Constants.SampleFoodsAreConsistent | src/data/constants.js:69-137 | every sample food's calories equal the sum of its items' calories, and sample ids are distinct |
| Constants.SampleCaloriesAddUp | src/data/constants.js:69-137 | each sample's total calories add up over its items |
| Constants.AnswerValuesDistinct | src/data/constants.js:139-211 | within every check-in question the answer values are pairwise distinct |
| Constants.CheckInFlowsWellFormed | src/data/constants.js:139-211 | each of the three check-in flows has two questions whose answers are distinct |
| Calculations.BMRSexGap | src/utils/calculations.js:13-22 | BMR (Mifflin–St Jeor on the converted weight and height) of a male exceeds that of a female of equal weight, height and age by exactly 166 kcal |
| Calculations.BMRExample | src/utils/calculations.js:13-22 | 180 lb, 70 in, age 30, male gives a BMR of 1782.7156 |
| Calculations.Multiplier | src/utils/calculations.js:31 | the multiplier used is at least 1.2, including the 1.55 fallback |
| Calculations.TDEE | src/utils/calculations.js:30-33 | TDEE is BMR times the multiplier, rounded to the nearest integer |
| Calculations.UnknownActivityIsModerate | src/utils/calculations.js:31 | an unknown activity level gives the same TDEE as "moderate" |
| Calculations.CalorieTarget | src/utils/calculations.js:41-44 | the target is TDEE minus Deficit (the goal's table entry, 0 when missing), and equals TDEE for maintain or an unknown goal |
| Calculations.ProteinPerPound | src/utils/calculations.js:54 | the protein ratio used is positive, so protein grows with weight |
| Calculations.CalculateMacros | src/utils/calculations.js:53-69 | carbs are never negative; fat is non-negative for non-negative calories, protein for non-negative weight |
| Calculations.MacrosAccountForCalories | src/utils/calculations.js:53-69 | when protein and fat calories fit in the budget, 4·protein + 4·carbs + 9·fat is within 6.5 kcal of the calorie target |
| Calculations.CarbsFloorAtZero | src/utils/calculations.js:65-66 | when protein and fat use up the calories, carbs are 0 |
| Calculations.UnknownTierIsModerate | src/utils/calculations.js:54 | an unknown protein tier splits like "moderate" |
| Calculations.MacrosExample | src/utils/calculations.js:53-69 | 2000 kcal at 180 lb, moderate protein, gives 180 g protein, 185 g carbs, 60 g fat |
| Calculations.DailyGoals | src/utils/calculations.js:76-91 | a profile lacking weight, height, age or sex gets the fixed fallback goals; otherwise calories are the rounded TDEE minus the goal's deficit and the macros are the split of those calories for the user's weight; carbs are never negative |
| Calculations.DefaultUserGetsFallback | src/utils/calculations.js:77-80 | the default user gets the fallback goals |
| Calculations.WeeklyGoals | src/utils/calculations.js:98-105 | every weekly field is a multiple of 7 and divided by 7 gives back the daily goal, so the week is exactly seven days' goals |
| Calculations.MonthlyGoals | src/utils/calculations.js:112-119 | every monthly field is a multiple of 30 and divided by 30 gives back the daily goal, so the month is exactly thirty days' goals |
| Calculations.NonZero | src/utils/calculations.js:131 | `x \|\| 1` is never zero |
| Calculations.HalfScore | src/utils/calculations.js:131-137 | each half of the score is at most 50, and exactly 50 once the target is met |
| Calculations.ProgressScore | src/utils/calculations.js:126-140 | the score is at most 100, and 100 when both the deficit and the protein targets are met |
| Calculations.ToTenths | src/utils/calculations.js:149 | `toFixed(1)` lands within 0.05 of x, on a multiple of 0.1, and keeps a nonzero result's sign |
| Calculations.ProjectedFatLoss | src/utils/calculations.js:147-150 | projected pounds are within 0.05 of deficit/3500, and positive (negative) only for a positive (negative) deficit |
| Calculations.WholePoundsAreExact | src/utils/calculations.js:147-150 | a deficit of 3500·k projects exactly k pounds |
| Calculations.ConfirmedOnly | src/utils/calculations.js:159 | every entry the confirmed filter keeps is confirmed, and it never lengthens the log; AppendEntrySums and SumMacrosConcat fix its sum |
| Calculations.Unconfirmed | src/hooks/useAppState.js:76 | every entry the planned filter keeps is unconfirmed, and it never lengthens the log; EatenPlusPlanned fixes its sum |
| Calculations.FiltersSplitTheLog | src/utils/calculations.js:159 | the confirmed and the planned filters together keep every entry of the log copy for copy, so each keeps all entries of its kind |
| Calculations.FiltersConcat | src/utils/calculations.js:159 | both filters distribute over concatenation, so each keeps the log's order |
| Calculations.SumMacrosConcat | src/utils/calculations.js:158-167 | SumMacros (the reduce over the optionally filtered log, Total of the entries' macros with missing values as 0) of two concatenated logs is the sum of their sums, with or without the confirmed filter |
| Calculations.SumMacrosOfNothing | src/utils/calculations.js:166 | an empty log sums to zero |
| Calculations.SumMacrosAllPlanned | src/utils/calculations.js:158-167 | a log of planned entries only has zero eaten macros |
| Calculations.EatenPlusPlanned | src/hooks/useAppState.js:75-77 | eaten plus planned equals the unfiltered sum, so the projected totals count every entry exactly once |
| Calculations.CalculateRemaining | src/utils/calculations.js:176-183 | remaining plus eaten plus planned gives back the goals, for each macro |
| Calculations.AppendEntrySums | src/utils/calculations.js:158-167 | appending an entry adds its macros to the total, and to the eaten total only when it is confirmed |
| Calculations.DayChecksAfterAppend | src/utils/calculations.js:257-271 | DidHitProtein and DidStayUnderBudget read only confirmed entries: a planned entry changes neither; a confirmed entry cannot undo a protein hit, nor (with non-negative calories) rescue a busted budget |
| Calculations.RunBack | src/utils/calculations.js:235-246 | the backwards count covers only tracked days and stops at the first untracked day or at its bound |
| Calculations.Streak | src/utils/calculations.js:230-249 | the streak is at most 365 |
| Calculations.StreakIsRunEndingToday | src/utils/calculations.js:230-249 | the streak is the length of the run of tracked days ending today, or ending yesterday when today is empty (capped at 364) |
| Calculations.CalculateStreak | src/utils/calculations.js:230-249 | the loop returns the streak specification |
| AppStateHook.RemoveById | src/hooks/useAppState.js:151 | no entry under the id is left, and the survivors together with the entries under that id are the old log, copy for copy, so every other entry keeps all its copies |
| AppStateHook.RemoveDistributes | src/hooks/useAppState.js:151 | the filter works entry by entry and keeps order: removing from a concatenation concatenates the removals, and a single entry goes exactly when it carries the id |
| AppStateHook.RemoveKeepsOtherIds | src/hooks/useAppState.js:151 | an entry under another id keeps exactly as many copies as it had, so it survives when present |
| AppStateHook.RemoveAbsentIdKeepsLog | src/hooks/useAppState.js:151 | removing an id nobody has leaves the log unchanged |
| AppStateHook.RemoveUndoesAdd | src/hooks/useAppState.js:112-156 | removing a freshly added entry with a new id restores the log |
| AppStateHook.ConfirmById | src/hooks/useAppState.js:134-136 | confirming marks exactly the entries with that id as eaten and leaves the rest |
| AppStateHook.ConfirmKeepsProjected | src/hooks/useAppState.js:132-146 | confirming leaves the projected totals unchanged |
| AppStateHook.ConfirmIdempotent | src/hooks/useAppState.js:134-136 | confirming twice equals confirming once |
| AppStateHook.UpdateById | src/hooks/useAppState.js:161-163 | an update changes only the entries with that id, each by merging the given fields |
| AppStateHook.UpdateWithoutNumbersKeepsProjected | src/hooks/useAppState.js:159-168 | an update touching no macro leaves the projected totals unchanged |
| AppStateHook.WindowTally | src/hooks/useAppState.js:206-223 | protein-hit days ≤ tracked days ≤ days in the window |
| AppStateHook.WindowStats | src/hooks/useAppState.js:199-237 | the stats keep hit ≤ tracked ≤ window days, and the deficit is target minus eaten |
| AppStateHook.EmptyWindow | src/hooks/useAppState.js:225-236 | a window with no tracked day gives all-zero stats |
| AppStateHook.WindowSplit | src/hooks/useAppState.js:206-223 | the tally of a window is the sum of the tallies of two adjoining sub-windows |
| AppStateHook.PlannedOnlyDayAddsFullDeficit | src/hooks/useAppState.js:211-226 | a day holding only planned entries counts as tracked with zero eaten calories, so it adds a whole day's calorie goal to the deficit |
| AppStateHook.TallyWithPlannedDay | src/hooks/useAppState.js:211-220 | such a day adds one tracked day and no calories to the tally |
| AppStateHook.OneMoreTrackedDay | src/hooks/useAppState.js:225-226 | one more tracked day with the same calories raises the target and the deficit by the daily goal |
| AppStateHook.AppState.Load | src/hooks/useAppState.js:47-67 | on mount the user is kept only if onboarding was completed; coins come from the store, the streak is computed from the history, and today's log is loaded |
| AppStateHook.AppState.DailyGoals | src/hooks/useAppState.js:70 | without a user the fallback goals are shown, otherwise the user's computed goals |
| AppStateHook.AppState.WeeklyGoals | src/hooks/useAppState.js:71 | the weekly goals are exactly 7 times the daily goals shown: each field a multiple of 7 that divides back to the daily one |
| AppStateHook.AppState.MonthlyGoals | src/hooks/useAppState.js:72 | the monthly goals are exactly 30 times the daily goals shown: each field a multiple of 30 that divides back to the daily one |
| AppStateHook.AppState.Projected | src/hooks/useAppState.js:75-77 | projected is eaten plus planned |
| AppStateHook.AppState.GoToDate | src/hooks/useAppState.js:240-242 | changing the date loads that day's saved log and changes nothing else |
| AppStateHook.AppState.UpdateUser | src/hooks/useAppState.js:80-86 | the profile is merged with the update (starting from an empty profile when there is none) and saved |
| AppStateHook.AppState.CompleteOnboarding | src/hooks/useAppState.js:89-99 | the new user is saved, 10 welcome coins are added and saved, and the excited popup shows them |
| AppStateHook.AppState.AddFood | src/hooks/useAppState.js:102-129 | the entry gets the new id and is appended as eaten or planned; the day's history is saved; only eaten meals pay 5 coins |
| AppStateHook.AppState.ConfirmFood | src/hooks/useAppState.js:132-146 | the entry is marked eaten, the day is saved, 5 coins are paid, and projected totals are unchanged |
| AppStateHook.AppState.RemoveFood | src/hooks/useAppState.js:149-156 | the new log is the old one filtered by RemoveById (exactly the entries under the id go, the rest stay in order) and the day is saved; coins and popup are unchanged |
| AppStateHook.AppState.UpdateFood | src/hooks/useAppState.js:159-168 | the entries with that id are merged with the update and the day is saved |
| AppStateHook.AppState.ShowCharacter | src/hooks/useAppState.js:171-178 | the popup shows the given mood, message and coins; nothing else changes |
| AppStateHook.AppState.HideCharacter | src/hooks/useAppState.js:180-182 | the popup is hidden, keeping its content; nothing else changes |
| AppStateHook.AppState.AwardCoins | src/hooks/useAppState.js:186-196 | coins grow by the amount and are saved; the popup shows only when there is a message |
| AppStateHook.AppState.GetStats | src/hooks/useAppState.js:199-237 | the loop over the window returns the window-stats specification |
| Screens.GoalsFor | src/App.jsx:196-200 | the goals shown for a timeframe are exactly its length in days times the daily goals: each field a multiple of the length that divides back to the daily one |
| Screens.LeftIsRemaining | src/App.jsx:202-215 | DisplayValue's "left" equals the calorie part of calculateRemaining, an unknown mode shows "left", and left plus total is the goal |
| Screens.Progress | src/App.jsx:228 | ring and bar progress is at most 100, never +Infinity, NaN only for 0/0, and full once the goal is reached |
| Screens.ZeroGoalShowsFull | src/App.jsx:433 | a zero goal with positive intake shows a full bar |
| Screens.RemainingShown | src/App.jsx:360 | "Remaining" is goal minus projected, floored at zero |
| Screens.WindowSpansOneExtraDay | src/App.jsx:713-735 | WindowStart puts the 7, 30 and 90 day windows (and any other value, as 7) at today minus n, so with both ends included they span 8, 31 and 91 days |
| Screens.ProteinHitRate | src/App.jsx:740-742 | the hit rate is a percentage between 0 and 100, 0 with no hits and 100 when every tracked day hit |
| Screens.ProteinScore | src/App.jsx:746 | the protein half of the net score lies between 0 and 50 |
| Screens.NetScoreNaNWithoutTrackedDays | src/App.jsx:745-747 | as written (DeficitScoreAsWritten, NetScoreAsWritten), a window with no tracked day gives a NaN net score |
| Screens.DeficitScore | src/App.jsx:745 | the guarded deficit half is at most 50, 0 for a zero target, and 50 for a deficit of at least 15% of the target |
| Screens.NetScore | src/App.jsx:745-747 | the guarded net score lies in 0..100, and is 100 for full protein and a deficit of at least 15% of the target |
| Screens.NetScoreAgreesWhenTargetNonZero | src/App.jsx:745-747 | with a nonzero target the guarded score equals NetScoreAsWritten |
| Screens.NetScoreWithoutTrackedDays | src/App.jsx:745-747 | the guarded score of a window with no tracked day is 0 |
| OnboardingWizard.StepAt | src/components/Onboarding.jsx:8-17 | exactly the indices 0..7 name a step |
| OnboardingWizard.ProgressWidth | src/components/Onboarding.jsx:69 | the bar width lies between 12.5% and 100% and is 100% on the last step |
| OnboardingWizard.DoubleTapLeavesTheStepsAsWritten | src/components/Onboarding.jsx:30-48 | with NextAsWritten and BackAsWritten, two Continue taps on step 6 reach step 8, and two Back taps on step 1 reach step -1; neither is a step |
| OnboardingWizard.TapsKeepOnScreen | src/components/Onboarding.jsx:30-48 | with Next and Back ignoring taps while animating (the corrected machine), every tap and timer keeps the wizard on a real step and moves at most one step |
| OnboardingWizard.RunStaysOnScreen | src/components/Onboarding.jsx:30-48 | with the corrected machine, Run of any sequence of taps and timers stays on a real step |
| OnboardingWizard.GuardOnlyMattersWhileAnimating | src/components/Onboarding.jsx:30-48 | the as-written taps (NextAsWritten, BackAsWritten) and the guarded ones (Next, Back) agree whenever no transition is running, and differ on every tap during one |
| OnboardingWizard.TrimStart | src/components/Onboarding.jsx:194 | the result is a suffix, only whitespace was dropped, and it starts with a visible character |
| OnboardingWizard.TrimEnd | src/components/Onboarding.jsx:194 | the result is a prefix, only whitespace was dropped, and it ends with a visible character |
| OnboardingWizard.TrimEmptyIffBlank | src/components/Onboarding.jsx:194 | Trim (TrimStart then TrimEnd) gives the empty string exactly when every character is whitespace |
| OnboardingWizard.NameGuardNeedsAVisibleCharacter | src/components/Onboarding.jsx:194 | CanContinueName holds exactly when the name has a visible character |
| OnboardingWizard.GuardsGiveComputedGoals | src/components/Onboarding.jsx:238-329 | a profile passing CanContinueBasics (age and sex, line 238) and CanContinueMeasurements (height and weight, line 329) gets computed goals, not the fallback |
| OnboardingWizard.DigitRun | src/components/Onboarding.jsx:294 | the digit run is the longest prefix of decimal digits |
| OnboardingWizard.ParseIntOrNull | src/components/Onboarding.jsx:294 | `parseInt(v) \|\| null` is never 0, and is truthy exactly when present |
| OnboardingWizard.Digits | src/components/Onboarding.jsx:319-320 | a number is displayed as a non-empty run of digits |
| OnboardingWizard.ValueOfDigits | src/components/Onboarding.jsx:319-320 | reading back a displayed number gives the number |
| OnboardingWizard.ParseIntReadsDigits | src/components/Onboarding.jsx:323 | ParseInt (skip whitespace, optional sign, leading digit run, NaN when there is none) of an optionally signed digit string returns its value |
| OnboardingWizard.ParseIntReadsDecimal | src/components/Onboarding.jsx:323 | `parseInt` reads back any displayed natural number |
| OnboardingWizard.JoinHeight | src/components/Onboarding.jsx:322-327 | the height sent on is positive or absent |
| OnboardingWizard.HeightRoundTrip | src/components/Onboarding.jsx:319-327 | SplitHeight (floor division by 12 and the remainder) followed by JoinHeight gives a positive height back |
| OnboardingWizard.EmptyBoxesSendNothing | src/components/Onboarding.jsx:322-327 | two empty boxes send no height, so the previous height is kept |
| OnboardingWizard.ProteinGrams | src/components/Onboarding.jsx:543-546 | the preview equals the protein calculateMacros gives, using 150 lb when the weight is unset |
| OnboardingWizard.Wizard.constructor | src/components/Onboarding.jsx:20-24 | the wizard starts on step 0, not animating, with the default user |
| OnboardingWizard.Wizard.UpdateUser | src/components/Onboarding.jsx:26-28 | the draft profile is merged with the update; the steps are unchanged |
| OnboardingWizard.Wizard.NextStep | src/components/Onboarding.jsx:30-38 | Continue as written: any tap below the last step schedules one more +1 change, even while a transition is running |
| OnboardingWizard.Wizard.PrevStep | src/components/Onboarding.jsx:40-48 | Back as written: any tap above the first step schedules one more -1 change, even while a transition is running |
| OnboardingWizard.Wizard.FireTimer | src/components/Onboarding.jsx:33-36 | a transition timer applies its step change and ends the animation |
| OnboardingWizard.Wizard.HandleComplete | src/components/Onboarding.jsx:50-57 | the profile handed on is the draft marked as onboarded |
| Coach.Answer | src/utils/coachResponses.js:10 | an answer is present exactly when the question was answered, and is that answer |
| Coach.GetProgressResponse | src/utils/coachResponses.js:9-52 | "frustrated" quotes the streak with the non-scale tip; "okay" is calm, is on track exactly for a positive deficit, and gives the resistance-training tip exactly for "neglected" muscles, else the protein tip with hit/total days (defaults 0 and 7); "good"/"great" are proud, quote the projected loss exactly for a positive deficit, and give the great-flow tip exactly for "strong", else keep-protein-high; anything else gets the fallback reply; every quoted loss equals the projected fat loss of its positive deficit |
| Coach.OfferedWeightFeelingsAreAnswered | src/utils/coachResponses.js:15-51 | every weight answer the flow offers gets a specific message |
| Coach.MuscleFeelingOnlyChangesTip | src/utils/coachResponses.js:23-45 | the muscle answer never changes the message or the mood |
| Coach.EmptyStatsDefaults | src/utils/coachResponses.js:11-45 | with no stats, no loss is quoted and the protein tip reads 0 of 7 days |
| Coach.SmallDeficitQuotesZeroPounds | src/utils/coachResponses.js:13-26 | a 100 kcal deficit is still quoted, as 0.0 lbs |
| Coach.ModalStatsProjection | src/App.jsx:1002-1013 | with the check-in modal's figures, answering "good" projects 0.7 lbs, with the great-flow tip and a proud mood |
| Coach.GetCravingResponse | src/utils/coachResponses.js:59-92 | the mood is calm, the strong-craving advice appears exactly for a "strong" intensity, and the emotional technique covers every unknown type |
| Coach.CravingTypesGetTheirOwnTechnique | src/utils/coachResponses.js:62-81 | sweet, salty, specific and emotional each get their namesake technique, four different ones (TechniqueFor is the `techniques[type] \|\| techniques.emotional` lookup) |
| Coach.IntensityOnlyAddsAdvice | src/utils/coachResponses.js:84-86 | the intensity answer only decides the extra advice |
| Coach.GetGuiltResponse | src/utils/coachResponses.js:100-142 | professional help is suggested exactly after a binge; the mood is calm exactly for the "not ruined" reply, else supportive; the "not ruined" reply quotes the week deficit exactly when it is positive, and then quotes the one given |
| Coach.GuiltPriority | src/utils/coachResponses.js:104-141 | a binge wins over every feeling, feeling ruined wins over having avoided logging, and the rest is a tiny blip |
| Coach.GuiltFlowAnswersCovered | src/utils/coachResponses.js:104-141 | each answer pair the guilt flow offers gets the reply its ranking names |
| Coach.VariantCount | src/utils/coachResponses.js:151-209 | every event has three or four message variants |
| Coach.PickIndex | src/utils/coachResponses.js:212 | `floor(random·n)` picks a valid index and is the cell random falls in |
| Coach.GetEncouragementMessage | src/utils/coachResponses.js:150-218 | EventOf maps the event name (unknown names to mealLogged); the variant is valid, the mood is EventMood of the event, only the streak milestone quotes the streak, and a draw below 0.25 picks the first variant |
| Coach.UnknownEventIsMealLogged | src/utils/coachResponses.js:211 | an unknown event behaves as "mealLogged" |
| Coach.EveryVariantReachable | src/utils/coachResponses.js:212 | every variant of every event is picked by some draw |
| Coach.TimeOfDayAt | src/utils/coachResponses.js:229-232 | morning before 12, afternoon from 12 to before 17, evening from 17 |
| Coach.GreetingLines | src/utils/coachResponses.js:234-238 | three greetings; the second praises the streak exactly above 7 days, and the third offers to plan exactly when nothing is eaten |
| Coach.GetCoachGreeting | src/utils/coachResponses.js:225-241 | the greeting has the hour's time of day and one of the three lines |
| Coach.GreetingIgnoresDailyGoal | src/utils/coachResponses.js:227 | the daily goal passed in never affects the greeting |
| Coach.StreakGreetingDraws | src/utils/coachResponses.js:236-240 | with a streak above 7, the streak praise is drawn exactly for draws in [1/3, 2/3) |

## Left out

- The storage layer (src/utils/storage.js) is not part of this model. The store appears as three fields of `AppState` (`savedUser`, `savedCoins`, `savedHistory`), and `Synced` states that they match the React state.
- React rendering, effects and timers are not modelled: the 300 ms wizard transition, the 2500 ms popup auto-hide and the 500 ms reveal delays. A transition timer is the explicit `FireTimer` event; the popup auto-hide is `HideCharacter`.
- The loading flag of the hook is left out because it only gates rendering.
- Clock, randomness and ids are parameters:
  - today's date, the hour of `getCoachGreeting` and `Math.random()` are passed in;
  - `Date.now()` ids come in as `newId`;
  - dates are plain day numbers, so `getDateKey`, `getDayIndex` and `getWeekStart` are not modelled.
- AppStateHook.AppState.GoToDate: `goToToday` (useAppState.js:244-246) is this method applied to the clock's day, so it has no member of its own.
- The `createdAt`, `time`, `loggedAt` and `confirmedAt` timestamps of entries, and the `createdAt` timestamp the onboarding wizard stamps on the profile, are not modelled: they read the clock.
- Message, question and label texts are replaced by tags carrying the numbers they quote. `formatNumber`/`toLocaleString`, `getDisplayLabel`, the `CHARACTER_MOODS` visuals, `MACRO_COLORS` and Character.jsx are display only.
- JavaScript numbers are modelled as exact reals and unbounded integers. IEEE rounding, signed zero and overflow are not modelled. Division results that can be `NaN` or `Infinity` use the `Number` type.
- `parseInt` is modelled for optional leading whitespace, an optional sign and decimal digits. The `0x` prefix and other radix forms are not modelled.
- Lookups with keys such as `toString` that hit `Object.prototype` are not modelled: unknown keys simply miss the tables.
- Repeated `awardCoins` calls inside one React render reading a stale `coins` closure are not modelled. Each call sees the latest coins.
- The check-in modal's fixed stats are used only in `Coach.ModalStatsProjection`. Its default branch for an unknown check-in type returns a constant reply and is not modelled.
- AppStateHook.AppState.AddFood: its postcondition states the new log, coins, popup and saved history. It does not restate the new macro sums; `Calculations.AppendEntrySums` states those on the log.

## Findings

| source | as written | input that shows it | evidently intended | confidence | as-written member | corrected member |
|---|---|---|---|---|---|---|
| src/App.jsx:745-747 | the deficit half of the net score divides by 15% of the window's calorie target, which is 0 when no day is tracked, so the score is 0/0 = NaN | any stats window with no tracked day | a guard like the protein hit rate's, so an empty window scores 0 | not executed | Screens.NetScoreNaNWithoutTrackedDays | Screens.NetScoreWithoutTrackedDays |
| src/components/Onboarding.jsx:30-48 | Continue and Back only check the step bound, not whether a transition is running, so two taps within the 300 ms animation schedule two step changes | two Continue taps on step 6 reach step 8; two Back taps on step 1 reach step -1 | ignore taps while animating, so the wizard always shows a real step | not executed | OnboardingWizard.DoubleTapLeavesTheStepsAsWritten | OnboardingWizard.RunStaysOnScreen |
