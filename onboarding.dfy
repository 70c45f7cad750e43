/** The onboarding wizard (src/components/Onboarding.jsx): eight steps walked with
    Continue and Back taps whose step change lands 300 ms later, the profile being filled
    in, the guards on the name, basics and measurements steps, and the text-to-number
    conversions of the number inputs. */
module OnboardingWizard {
  import opened Types
  import opened JsMath
  import opened Constants
  import Calculations

  // ---------------------------------------------------------------------------
  // Steps

  datatype OnboardingStep = WelcomeStep | NameStep | BasicsStep | MeasurementsStep | ActivityStep | GoalStep | ProteinStep | SummaryStep

  const StepCount := 8
  const LastStep := StepCount - 1

  /** `ONBOARDING_STEPS[step]`: outside the list nothing is shown. */
  function StepAt(i: int): (s: Option<OnboardingStep>)
    ensures s.Some? <==> 0 <= i < StepCount
  {
    match i
    case 0 => Some(WelcomeStep)
    case 1 => Some(NameStep)
    case 2 => Some(BasicsStep)
    case 3 => Some(MeasurementsStep)
    case 4 => Some(ActivityStep)
    case 5 => Some(GoalStep)
    case 6 => Some(ProteinStep)
    case 7 => Some(SummaryStep)
    case _ => None
  }

  /** Width of the progress bar, in percent. */
  function ProgressWidth(step: int): (w: real)
    ensures 0 <= step <= LastStep ==> 12.5 <= w <= 100.0
    ensures step == LastStep ==> w == 100.0
  {
    (step + 1) as real / StepCount as real * 100.0
  }

  /** The step, whether the content is fading, and the step changes whose timers are still
      running, oldest first. */
  datatype Flow = Flow(step: int, animating: bool, pending: seq<int>)

  const Start := Flow(0, false, [])

  datatype Tap = NextTap | BackTap | TimerFires

  /** Continue as written: the guard reads the step of the current render, so a second tap
      before the timer fires schedules a second change. */
  function NextAsWritten(f: Flow): Flow
  {
    if f.step < StepCount - 1 then f.(animating := true, pending := f.pending + [1]) else f
  }

  function BackAsWritten(f: Flow): Flow
  {
    if f.step > 0 then f.(animating := true, pending := f.pending + [-1]) else f
  }

  /** The oldest timer fires: its updater moves the step and the fade ends. */
  function Fire(f: Flow): Flow
  {
    if f.pending == [] then f else Flow(f.step + f.pending[0], false, f.pending[1..])
  }

  function RunAsWritten(f: Flow, taps: seq<Tap>): Flow
  {
    if taps == [] then f
    else
      var g := RunAsWritten(f, taps[..|taps| - 1]);
      match taps[|taps| - 1]
      case NextTap => NextAsWritten(g)
      case BackTap => BackAsWritten(g)
      case TimerFires => Fire(g)
  }

  /** Two quick taps on the protein step's Continue reach step 8, and two quick taps on the
      name step's Back reach step -1; neither has a screen. */
  lemma DoubleTapLeavesTheStepsAsWritten()
    ensures RunAsWritten(Flow(6, false, []), [NextTap, NextTap, TimerFires, TimerFires]).step == 8
    ensures RunAsWritten(Flow(1, false, []), [BackTap, BackTap, TimerFires, TimerFires]).step == -1
    ensures StepAt(8).None? && StepAt(-1).None?
  {
    var taps := [NextTap, NextTap, TimerFires, TimerFires];
    var f := Flow(6, false, []);
    assert taps[..3][..2][..1][..0] == [];
    assert RunAsWritten(f, taps[..1]) == Flow(6, true, [1]);
    assert RunAsWritten(f, taps[..2]) == Flow(6, true, [1, 1]);
    assert taps[..3][..2] == taps[..2] && taps[..3][2] == TimerFires;
    assert [1, 1][1..] == [1];
    assert RunAsWritten(f, taps[..3]) == Flow(7, false, [1]);
    var backs := [BackTap, BackTap, TimerFires, TimerFires];
    var g := Flow(1, false, []);
    assert backs[..3][..2][..1][..0] == [];
    assert RunAsWritten(g, backs[..1]) == Flow(1, true, [-1]);
    assert RunAsWritten(g, backs[..2]) == Flow(1, true, [-1, -1]);
    assert backs[..3][..2] == backs[..2] && backs[..3][2] == TimerFires;
    assert [-1, -1][1..] == [-1];
    assert RunAsWritten(g, backs[..3]) == Flow(0, false, [-1]);
  }

  /** Continue with taps ignored while a change is under way. */
  function Next(f: Flow): Flow
  {
    if f.step < LastStep && !f.animating then f.(animating := true, pending := f.pending + [1]) else f
  }

  function Back(f: Flow): Flow
  {
    if f.step > 0 && !f.animating then f.(animating := true, pending := f.pending + [-1]) else f
  }

  function Run(f: Flow, taps: seq<Tap>): Flow
  {
    if taps == [] then f
    else
      var g := Run(f, taps[..|taps| - 1]);
      match taps[|taps| - 1]
      case NextTap => Next(g)
      case BackTap => Back(g)
      case TimerFires => Fire(g)
  }

  /** The guard changes nothing for a tap made once the previous change has landed: the
      as-written and the guarded wizard differ only on taps during a transition. */
  lemma GuardOnlyMattersWhileAnimating(f: Flow)
    ensures !f.animating ==> NextAsWritten(f) == Next(f) && BackAsWritten(f) == Back(f)
    ensures f.animating && f.step < LastStep ==> Next(f) == f && NextAsWritten(f) != f
    ensures f.animating && f.step > 0 ==> Back(f) == f && BackAsWritten(f) != f
  {
    assert f.step < LastStep ==> |NextAsWritten(f).pending| == |f.pending| + 1;
    assert f.step > 0 ==> |BackAsWritten(f).pending| == |f.pending| + 1;
  }

  /** A step on the list, at most one change pending, and that change lands on the list. */
  predicate OnScreen(f: Flow)
  {
    0 <= f.step <= LastStep &&
    (f.animating <==> f.pending != []) &&
    (f.pending == [] || (f.pending == [1] && f.step < LastStep) || (f.pending == [-1] && f.step > 0))
  }

  lemma TapsKeepOnScreen(f: Flow)
    requires OnScreen(f)
    ensures OnScreen(Next(f)) && OnScreen(Back(f)) && OnScreen(Fire(f))
    ensures Fire(f).step == f.step || Fire(f).step == f.step + 1 || Fire(f).step == f.step - 1
  {
  }

  /** With the guard, every sequence of taps and timers keeps a step that has a screen. */
  lemma {:induction false} RunStaysOnScreen(taps: seq<Tap>)
    ensures OnScreen(Run(Start, taps))
    ensures StepAt(Run(Start, taps).step).Some?
  {
    if taps != [] {
      RunStaysOnScreen(taps[..|taps| - 1]);
      TapsKeepOnScreen(Run(Start, taps[..|taps| - 1]));
    }
  }

  // ---------------------------------------------------------------------------
  // Guards

  /** JavaScript white space and line terminators. */
  predicate IsWhitespace(c: char)
  {
    c == ' ' || c == '\t' || c == '\n' || c == '\r' || c == '\U{000B}' || c == '\U{000C}' ||
    c == '\U{00A0}' || c == '\U{1680}' || ('\U{2000}' <= c <= '\U{200A}') ||
    c == '\U{2028}' || c == '\U{2029}' || c == '\U{202F}' || c == '\U{205F}' ||
    c == '\U{3000}' || c == '\U{FEFF}'
  }

  function TrimStart(s: string): (r: string)
    ensures |r| <= |s| && r == s[|s| - |r|..]
    ensures forall i :: 0 <= i < |s| - |r| ==> IsWhitespace(s[i])
    ensures r != [] ==> !IsWhitespace(r[0])
  {
    if s != [] && IsWhitespace(s[0]) then
      var r := TrimStart(s[1..]);
      assert s[1..][|s| - 1 - |r|..] == s[|s| - |r|..];
      assert forall i :: 1 <= i < |s| ==> s[i] == s[1..][i - 1];
      r
    else s
  }

  function TrimEnd(s: string): (r: string)
    ensures |r| <= |s| && r == s[..|r|]
    ensures forall i :: |r| <= i < |s| ==> IsWhitespace(s[i])
    ensures r != [] ==> !IsWhitespace(r[|r| - 1])
  {
    if s != [] && IsWhitespace(s[|s| - 1]) then TrimEnd(s[..|s| - 1]) else s
  }

  /** `String.prototype.trim`. */
  function Trim(s: string): string
  {
    TrimEnd(TrimStart(s))
  }

  /** Trimming leaves nothing exactly when every character is white space. */
  lemma TrimEmptyIffBlank(s: string)
    ensures Trim(s) == [] <==> forall i :: 0 <= i < |s| ==> IsWhitespace(s[i])
  {
    var t := TrimStart(s);
    if t != [] {
      assert !IsWhitespace(s[|s| - |t|]);
    }
  }

  /** The name step's Continue: `value && value.trim().length > 0`. */
  predicate CanContinueName(name: string)
  {
    name != "" && |Trim(name)| > 0
  }

  lemma NameGuardNeedsAVisibleCharacter(name: string)
    ensures CanContinueName(name) <==> exists i :: 0 <= i < |name| && !IsWhitespace(name[i])
  {
    TrimEmptyIffBlank(name);
  }

  /** The basics step's Continue: `age && sex`. */
  predicate CanContinueBasics(u: UserProfile)
  {
    Truthy(u.age) && u.sex.Some?
  }

  /** The measurements step's Continue: `height && weight`. */
  predicate CanContinueMeasurements(u: UserProfile)
  {
    Truthy(u.height) && Truthy(u.weight)
  }

  /** A profile past the basics and measurements guards gets goals from the formula, not
      the fallback. */
  lemma GuardsGiveComputedGoals(u: UserProfile)
    requires CanContinueBasics(u) && CanContinueMeasurements(u)
    ensures !Calculations.IncompleteProfile(u)
    ensures Calculations.DailyGoals(u).calories ==
            Calculations.TDEE(Calculations.BMR(u.weight.value, u.height.value, u.age.value, u.sex.value),
                              u.activityLevel) - Calculations.Deficit(u.goal)
  {
  }

  // ---------------------------------------------------------------------------
  // Number inputs

  predicate IsDigit(c: char)
  {
    '0' <= c <= '9'
  }

  /** Length of the run of decimal digits at the front. */
  function DigitRun(s: string): (n: nat)
    ensures n <= |s|
    ensures forall i :: 0 <= i < n ==> IsDigit(s[i])
    ensures n < |s| ==> !IsDigit(s[n])
  {
    if s != [] && IsDigit(s[0]) then 1 + DigitRun(s[1..]) else 0
  }

  /** The value of a string of decimal digits. */
  function Value(ds: string): int
  {
    if ds == [] then 0 else Value(ds[..|ds| - 1]) * 10 + (ds[|ds| - 1] as int - '0' as int)
  }

  /** `parseInt(s)` in base ten: leading white space, an optional sign, then the longest
      run of digits; `None` for NaN. */
  function ParseInt(s: string): Option<int>
  {
    var t := TrimStart(s);
    var negative := |t| > 0 && t[0] == '-';
    var u := if |t| > 0 && (t[0] == '-' || t[0] == '+') then t[1..] else t;
    var n := DigitRun(u);
    if n == 0 then None
    else if negative then Some(-Value(u[..n]))
    else Some(Value(u[..n]))
  }

  /** `parseInt(s) || null`: NaN and zero both become null. */
  function ParseIntOrNull(s: string): (r: Option<int>)
    ensures r.None? || r.value != 0
    ensures Truthy(r) <==> r.Some?
  {
    var n := ParseInt(s);
    if n.Some? && n.value != 0 then n else None
  }

  /** `parseInt(s) || 0`. */
  function ParseIntOrZero(s: string): int
  {
    GetOr(ParseInt(s), 0)
  }

  function Digit(d: int): char
    requires 0 <= d < 10
  {
    ('0' as int + d) as char
  }

  /** Decimal digits of a natural number, without leading zeros. */
  function Digits(n: nat): (s: string)
    ensures |s| > 0 && forall i :: 0 <= i < |s| ==> IsDigit(s[i])
  {
    if n < 10 then [Digit(n)] else Digits(n / 10) + [Digit(n % 10)]
  }

  /** How an integer is written as text. */
  function Decimal(n: int): string
  {
    if n < 0 then "-" + Digits(-n) else Digits(n)
  }

  lemma {:induction false} ValueOfDigits(n: nat)
    ensures Value(Digits(n)) == n
  {
    if n >= 10 {
      ValueOfDigits(n / 10);
      var ds := Digits(n);
      assert ds[..|ds| - 1] == Digits(n / 10);
    }
  }

  /** A run of digits, signed or not, reads as its value. */
  lemma ParseIntReadsDigits(ds: string, negative: bool)
    requires |ds| > 0 && forall i :: 0 <= i < |ds| ==> IsDigit(ds[i])
    ensures ParseInt(if negative then "-" + ds else ds) == Some(if negative then -Value(ds) else Value(ds))
  {
    DigitRunOfDigits(ds);
    assert ds[..|ds|] == ds;
    assert !IsWhitespace(ds[0]) && ds[0] != '-' && ds[0] != '+';
    var s := if negative then "-" + ds else ds;
    TrimStartKeepsVisibleStart(s);
    if negative {
      assert s[1..] == ds;
    }
  }

  lemma DigitRunOfDigits(ds: string)
    requires forall i :: 0 <= i < |ds| ==> IsDigit(ds[i])
    ensures DigitRun(ds) == |ds|
  {
  }

  lemma TrimStartKeepsVisibleStart(s: string)
    requires s != [] && !IsWhitespace(s[0])
    ensures TrimStart(s) == s
  {
  }

  /** Reading back the text of any integer gives the integer. */
  lemma ParseIntReadsDecimal(n: int)
    ensures ParseInt(Decimal(n)) == Some(n)
  {
    var m: nat := if n < 0 then -n else n;
    ValueOfDigits(m);
    ParseIntReadsDigits(Digits(m), n < 0);
  }

  /** What the feet and inches boxes start from: both empty when the height is falsy. */
  function SplitHeight(height: Option<int>): (texts: (string, string))
  {
    if Truthy(height) then (Decimal(height.value / 12), Decimal(Rem(height.value, 12))) else ("", "")
  }

  /** The update a feet/inches edit sends: the total in inches, and nothing unless positive. */
  function JoinHeight(feet: string, inches: string): (height: Option<int>)
    ensures height.Some? ==> height.value > 0
  {
    var total := ParseIntOrZero(feet) * 12 + ParseIntOrZero(inches);
    if total > 0 then Some(total) else None
  }

  /** Editing nothing in the boxes sends back the height they were filled from. */
  lemma HeightRoundTrip(height: int)
    requires height > 0
    ensures JoinHeight(SplitHeight(Some(height)).0, SplitHeight(Some(height)).1) == Some(height)
  {
    var feet, inches := height / 12, Rem(height, 12);
    assert inches == height % 12;
    var texts := SplitHeight(Some(height));
    assert texts.0 == Decimal(feet) && texts.1 == Decimal(inches);
    BoxReadsDecimal(feet);
    BoxReadsDecimal(inches);
    var total := ParseIntOrZero(texts.0) * 12 + ParseIntOrZero(texts.1);
    assert total == feet * 12 + inches == height;
  }

  lemma BoxReadsDecimal(n: int)
    ensures ParseIntOrZero(Decimal(n)) == n
  {
    ParseIntReadsDecimal(n);
  }

  /** Clearing both boxes sends no update. */
  lemma EmptyBoxesSendNothing()
    ensures JoinHeight("", "") == None
  {
  }

  /** The grams shown on the protein step: `(weight || 150)` pounds times the tier's ratio. */
  function ProteinGrams(weight: Option<int>, tier: ProteinTier): (g: int)
    ensures Truthy(weight) ==> forall calories ::
      g == Calculations.CalculateMacros(calories, weight.value, tier).protein
    ensures !Truthy(weight) ==> forall calories ::
      g == Calculations.CalculateMacros(calories, 150, tier).protein
  {
    var pounds := if Truthy(weight) then weight.value else 150;
    Round(pounds as real * Calculations.ProteinPerPound(tier))
  }

  // ---------------------------------------------------------------------------
  // The wizard

  /** The component's state as written: its taps follow NextAsWritten and BackAsWritten, so
      a run of its methods follows RunAsWritten. */
  class Wizard {
    var step: int
    var animating: bool
    var pending: seq<int>
    var user: UserProfile

    function State(): Flow
      reads this
    {
      Flow(step, animating, pending)
    }

    function CurrentStep(): Option<OnboardingStep>
      reads this
    {
      StepAt(step)
    }

    constructor ()
      ensures State() == Start && user == DefaultUser
    {
      step := 0;
      animating := false;
      pending := [];
      user := DefaultUser;
    }

    method UpdateUser(updates: ProfileUpdate)
      modifies this
      ensures user == ApplyUpdate(old(user), updates)
      ensures State() == old(State())
    {
      user := ApplyUpdate(user, updates);
    }

    /** Continue as written: every tap below the last step schedules another change. */
    method NextStep()
      modifies this
      ensures State() == NextAsWritten(old(State())) && user == old(user)
    {
      if step < LastStep {
        animating := true;
        pending := pending + [1];
      }
    }

    /** Back as written: every tap above the first step schedules another change. */
    method PrevStep()
      modifies this
      ensures State() == BackAsWritten(old(State())) && user == old(user)
    {
      if step > 0 {
        animating := true;
        pending := pending + [-1];
      }
    }

    method FireTimer()
      modifies this
      ensures State() == Fire(old(State())) && user == old(user)
    {
      if pending != [] {
        step := step + pending[0];
        pending := pending[1..];
        animating := false;
      }
    }

    /** The finished profile handed to the app. */
    method HandleComplete() returns (completeUser: UserProfile)
      ensures completeUser.onboardingComplete
      ensures completeUser == user.(onboardingComplete := true)
    {
      completeUser := user.(onboardingComplete := true);
    }
  }
}
