/** The onboarding questionnaire (pages/OnboardingPage.tsx): five steps with
    back and next, a nested photo-capture flow on step 3, and the profile it
    accumulates. */
module OnboardingPage {
  import opened Types

  // ---------------------------------------------------------------------
  // Profile updates: `updateProfile(key, value)`
  // ---------------------------------------------------------------------

  datatype ProfileKey =
    | NameKey | AgeKey | GenderKey | LocationKey | ClimateKey | SkinTypeKey | SensitivityKey
    | ShavingKey | SkinHistoryKey | GoalsKey | CurrentRoutineKey | BudgetKey | SkinImagesKey

  /** A key of `UserProfile` together with the value written under it. */
  datatype ProfileUpdate =
    | SetName(name: Option<string>)
    | SetAge(age: Option<int>)
    | SetGender(gender: Option<string>)
    | SetLocation(location: Option<string>)
    | SetClimate(climate: Option<string>)
    | SetSkinType(skinType: Option<string>)
    | SetSensitivity(sensitivity: Option<Sensitivity>)
    | SetShaving(shaving: Option<string>)
    | SetSkinHistory(skinHistory: Option<string>)
    | SetGoals(goals: Option<seq<string>>)
    | SetCurrentRoutine(currentRoutine: Option<string>)
    | SetBudget(budget: Option<BudgetLevel>)
    | SetSkinImages(skinImages: Option<SkinImages>)

  function KeyOf(u: ProfileUpdate): ProfileKey {
    match u
    case SetName(_) => NameKey
    case SetAge(_) => AgeKey
    case SetGender(_) => GenderKey
    case SetLocation(_) => LocationKey
    case SetClimate(_) => ClimateKey
    case SetSkinType(_) => SkinTypeKey
    case SetSensitivity(_) => SensitivityKey
    case SetShaving(_) => ShavingKey
    case SetSkinHistory(_) => SkinHistoryKey
    case SetGoals(_) => GoalsKey
    case SetCurrentRoutine(_) => CurrentRoutineKey
    case SetBudget(_) => BudgetKey
    case SetSkinImages(_) => SkinImagesKey
  }

  /** The value a profile holds under key `k`, as the update that would write it. */
  function Read(p: UserProfile, k: ProfileKey): (u: ProfileUpdate)
    ensures KeyOf(u) == k
  {
    match k
    case NameKey => SetName(p.name)
    case AgeKey => SetAge(p.age)
    case GenderKey => SetGender(p.gender)
    case LocationKey => SetLocation(p.location)
    case ClimateKey => SetClimate(p.climate)
    case SkinTypeKey => SetSkinType(p.skinType)
    case SensitivityKey => SetSensitivity(p.sensitivity)
    case ShavingKey => SetShaving(p.shaving)
    case SkinHistoryKey => SetSkinHistory(p.skinHistory)
    case GoalsKey => SetGoals(p.goals)
    case CurrentRoutineKey => SetCurrentRoutine(p.currentRoutine)
    case BudgetKey => SetBudget(p.budget)
    case SkinImagesKey => SetSkinImages(p.skinImages)
  }

  /** `{ ...prev, [key]: value }` */
  function Apply(p: UserProfile, u: ProfileUpdate): (r: UserProfile)
    ensures Read(r, KeyOf(u)) == u
  {
    match u
    case SetName(v) => p.(name := v)
    case SetAge(v) => p.(age := v)
    case SetGender(v) => p.(gender := v)
    case SetLocation(v) => p.(location := v)
    case SetClimate(v) => p.(climate := v)
    case SetSkinType(v) => p.(skinType := v)
    case SetSensitivity(v) => p.(sensitivity := v)
    case SetShaving(v) => p.(shaving := v)
    case SetSkinHistory(v) => p.(skinHistory := v)
    case SetGoals(v) => p.(goals := v)
    case SetCurrentRoutine(v) => p.(currentRoutine := v)
    case SetBudget(v) => p.(budget := v)
    case SetSkinImages(v) => p.(skinImages := v)
  }

  /** An update changes the key it names to the value it carries and leaves
      every other key as it was. */
  lemma {:induction false} ApplyChangesOnlyItsKey(p: UserProfile, u: ProfileUpdate)
    ensures Read(Apply(p, u), KeyOf(u)) == u
    ensures forall k :: k != KeyOf(u) ==> Read(Apply(p, u), k) == Read(p, k)
  {
    forall k | k != KeyOf(u) ensures Read(Apply(p, u), k) == Read(p, k) {
      match k {
        case NameKey =>
        case AgeKey =>
        case GenderKey =>
        case LocationKey =>
        case ClimateKey =>
        case SkinTypeKey =>
        case SensitivityKey =>
        case ShavingKey =>
        case SkinHistoryKey =>
        case GoalsKey =>
        case CurrentRoutineKey =>
        case BudgetKey =>
        case SkinImagesKey =>
      }
    }
  }

  /** Profiles are determined by what they hold under each key. */
  lemma {:induction false} ProfileExtensionality(p: UserProfile, q: UserProfile)
    requires forall k :: Read(p, k) == Read(q, k)
    ensures p == q
  {
    assert Read(p, NameKey) == Read(q, NameKey);
    assert Read(p, AgeKey) == Read(q, AgeKey);
    assert Read(p, GenderKey) == Read(q, GenderKey);
    assert Read(p, LocationKey) == Read(q, LocationKey);
    assert Read(p, ClimateKey) == Read(q, ClimateKey);
    assert Read(p, SkinTypeKey) == Read(q, SkinTypeKey);
    assert Read(p, SensitivityKey) == Read(q, SensitivityKey);
    assert Read(p, ShavingKey) == Read(q, ShavingKey);
    assert Read(p, SkinHistoryKey) == Read(q, SkinHistoryKey);
    assert Read(p, GoalsKey) == Read(q, GoalsKey);
    assert Read(p, CurrentRoutineKey) == Read(q, CurrentRoutineKey);
    assert Read(p, BudgetKey) == Read(q, BudgetKey);
    assert Read(p, SkinImagesKey) == Read(q, SkinImagesKey);
  }

  // ---------------------------------------------------------------------
  // Skin type (step 2) and goals (step 4)
  // ---------------------------------------------------------------------

  const SkinTypeLabels: seq<string> := ["Dry", "Oily", "Combination", "Normal"]
  const SkinTypeValues: seq<string> := ["dry", "oily", "combination", "normal"]
  const GoalLabels: seq<string> := ["Hydration", "Acne Control", "Even Tone", "Anti-Aging"]
  const MaxGoals := 3

  function LowerChar(c: char): char {
    if 'A' <= c <= 'Z' then (c as int + 32) as char else c
  }

  /** `toLowerCase` on ASCII letters. */
  function LowerAscii(s: string): (r: string)
    ensures |r| == |s|
    ensures forall i :: 0 <= i < |s| ==> r[i] == LowerChar(s[i])
  {
    if s == [] then [] else [LowerChar(s[0])] + LowerAscii(s[1..])
  }

  lemma LowerAsciiIs(s: string, t: string)
    requires |s| == |t| && forall i :: 0 <= i < |s| ==> LowerChar(s[i]) == t[i]
    ensures LowerAscii(s) == t
  {
  }

  /** The stored skin type is the lower-cased label of the card tapped. */
  lemma SkinTypeValuesAreLowerCaseLabels()
    ensures |SkinTypeValues| == |SkinTypeLabels|
    ensures forall i :: 0 <= i < |SkinTypeLabels| ==> LowerAscii(SkinTypeLabels[i]) == SkinTypeValues[i]
  {
    forall i | 0 <= i < |SkinTypeLabels| ensures LowerAscii(SkinTypeLabels[i]) == SkinTypeValues[i] {
      if i == 0 { LowerAsciiIs("Dry", "dry"); }
      else if i == 1 { LowerAsciiIs("Oily", "oily"); }
      else if i == 2 { LowerAsciiIs("Combination", "combination"); }
      else { LowerAsciiIs("Normal", "normal"); }
    }
  }

  /** `current.filter(g => g !== goal)` */
  function Without(s: seq<string>, x: string): (r: seq<string>)
    ensures forall y :: y in r <==> y in s && y != x
    ensures |r| <= |s|
    ensures x !in s ==> r == s
  {
    if s == [] then []
    else if s[0] == x then Without(s[1..], x)
    else [s[0]] + Without(s[1..], x)
  }

  predicate NoDuplicates(s: seq<string>) {
    forall i, j :: 0 <= i < j < |s| ==> s[i] != s[j]
  }

  /** The value written by tapping goal card `goal`: deselect it, or append it
      and keep at most three. */
  function ToggledGoals(current: seq<string>, goal: string): (r: seq<string>)
    ensures goal in r <==> goal !in current && |current| < MaxGoals
    ensures forall g :: g in r && g != goal ==> g in current
  {
    if goal in current then Without(current, goal)
    else
      var r := (current + [goal])[..if |current| + 1 < MaxGoals then |current| + 1 else MaxGoals];
      assert |current| < MaxGoals ==> r == current + [goal] && r[|current|] == goal;
      assert |current| >= MaxGoals ==> r == current[..MaxGoals];
      r
  }

  /** Tapping a selected goal removes it and keeps every other goal. */
  lemma ToggleSelectedRemoves(current: seq<string>, goal: string)
    requires goal in current
    ensures goal !in ToggledGoals(current, goal)
    ensures forall g :: g != goal ==> (g in ToggledGoals(current, goal) <==> g in current)
  {
  }

  /** Tapping an unselected goal appends it while fewer than three are
      selected; with three selected the list is left as it is. */
  lemma ToggleUnselected(current: seq<string>, goal: string)
    requires goal !in current && |current| <= MaxGoals
    ensures |current| < MaxGoals ==> ToggledGoals(current, goal) == current + [goal]
    ensures |current| == MaxGoals ==> ToggledGoals(current, goal) == current
  {
    if |current| == MaxGoals {
      assert (current + [goal])[..MaxGoals] == current;
    }
  }

  /** The selection never exceeds three goals and never holds one twice. */
  lemma {:induction false} ToggleKeepsSelectionValid(current: seq<string>, goal: string)
    requires |current| <= MaxGoals && NoDuplicates(current)
    ensures |ToggledGoals(current, goal)| <= MaxGoals
    ensures NoDuplicates(ToggledGoals(current, goal))
  {
    if goal in current {
      WithoutKeepsNoDuplicates(current, goal);
    } else {
      ToggleUnselected(current, goal);
    }
  }

  lemma {:induction false} WithoutKeepsNoDuplicates(s: seq<string>, x: string)
    requires NoDuplicates(s)
    ensures NoDuplicates(Without(s, x))
  {
    if s != [] {
      WithoutKeepsNoDuplicates(s[1..], x);
      if s[0] != x {
        assert s[0] !in s[1..];
        var r := Without(s[1..], x);
        assert s[0] !in r;
        assert forall i :: 0 < i < |[s[0]] + r| ==> ([s[0]] + r)[i] == r[i - 1];
      }
    }
  }

  /** Appending a goal that was not there and then removing it again. */
  lemma {:induction false} WithoutAppended(s: seq<string>, x: string)
    requires x !in s
    ensures Without(s + [x], x) == s
  {
    if s == [] {
      assert [x][1..] == [];
    } else {
      assert (s + [x])[1..] == s[1..] + [x];
      WithoutAppended(s[1..], x);
    }
  }

  /** Tapping the same unselected goal twice restores the list when fewer
      than three goals were selected. */
  lemma ToggleTwiceRestores(current: seq<string>, goal: string)
    requires goal !in current && |current| < MaxGoals
    ensures ToggledGoals(ToggledGoals(current, goal), goal) == current
  {
    ToggleUnselected(current, goal);
    WithoutAppended(current, goal);
  }

  // ---------------------------------------------------------------------
  // The page
  // ---------------------------------------------------------------------

  datatype CaptureStep = Intro | CaptureFront | CaptureLeft | CaptureRight | Review

  /** What a call of `nextStep` or `prevStep` emits to the page's owner. */
  datatype Event = NoEvent | Completed(profile: UserProfile) | Exited

  /** The control below the step content that leads on (264-268), the skip
      link of the photo intro (154-159), or the confirm button of the photo
      review (207-209). */
  datatype ContinueControl = NextButton(enabled: bool) | SkipPhotosLink | ConfirmButton | NoControl

  /** How far the photo flow has got, and what it has stored. */
  predicate CaptureConsistent(c: CaptureStep, temp: SkinImages, stored: Option<SkinImages>) {
    match c
    case Intro => temp == NoImages && stored == None
    case CaptureFront => temp == NoImages && stored == None
    case CaptureLeft => temp.front.Some? && temp.left.None? && temp.right.None? && stored == None
    case CaptureRight => temp.front.Some? && temp.left.Some? && temp.right.None? && stored == None
    case Review => temp.front.Some? && temp.left.Some? && temp.right.Some? && stored == Some(temp)
  }

  /** The profile fields whose values the page restricts. */
  predicate ProfileConsistent(p: UserProfile) {
    && (p.skinType.Some? ==> p.skinType.value in SkinTypeValues)
    && (p.goals.Some? ==> |p.goals.value| <= MaxGoals && NoDuplicates(p.goals.value))
  }

  class Onboarding {
    var step: int
    var profile: UserProfile
    var captureStep: CaptureStep
    var tempImages: SkinImages

    ghost predicate Valid()
      reads this
    {
      && 1 <= step <= 5
      && CaptureConsistent(captureStep, tempImages, profile.skinImages)
      && ProfileConsistent(profile)
    }

    constructor ()
      ensures Valid()
      ensures step == 1 && profile == EmptyProfile && captureStep == Intro && tempImages == NoImages
    {
      step := 1;
      profile := EmptyProfile;
      captureStep := Intro;
      tempImages := NoImages;
    }

    /** `updateProfile` */
    method UpdateProfile(u: ProfileUpdate)
      modifies this`profile
      ensures profile == Apply(old(profile), u)
    {
      profile := Apply(profile, u);
    }

    /** `nextStep`: advance, or emit completion with the profile on step 5. */
    method NextStep() returns (ev: Event)
      requires Valid()
      modifies this`step
      ensures Valid()
      ensures old(step) < 5 ==> step == old(step) + 1 && ev == NoEvent
      ensures old(step) == 5 ==> step == 5 && ev == Completed(profile)
    {
      if step < 5 {
        step := step + 1;
        ev := NoEvent;
      } else {
        ev := Completed(profile);
      }
    }

    /** `prevStep`: go back, or emit exit on step 1. */
    method PrevStep() returns (ev: Event)
      requires Valid()
      modifies this`step
      ensures Valid()
      ensures old(step) > 1 ==> step == old(step) - 1 && ev == NoEvent
      ensures old(step) == 1 ==> step == 1 && ev == Exited
    {
      if step > 1 {
        step := step - 1;
        ev := NoEvent;
      } else {
        ev := Exited;
      }
    }

    /** `handlePhotoScan`: store the photo of the current view and move on;
        the third photo also writes all three to the profile. */
    method HandlePhotoScan(base64: string)
      requires Valid()
      modifies this`tempImages, this`captureStep, this`profile
      ensures Valid()
      ensures old(captureStep) == CaptureFront ==>
        tempImages == old(tempImages).(front := Some(base64)) && captureStep == CaptureLeft && profile == old(profile)
      ensures old(captureStep) == CaptureLeft ==>
        tempImages == old(tempImages).(left := Some(base64)) && captureStep == CaptureRight && profile == old(profile)
      ensures old(captureStep) == CaptureRight ==>
        && tempImages == old(tempImages).(right := Some(base64)) && captureStep == Review
        && profile == Apply(old(profile), SetSkinImages(Some(tempImages)))
      ensures old(captureStep) in {Intro, Review} ==>
        tempImages == old(tempImages) && captureStep == old(captureStep) && profile == old(profile)
    {
      if captureStep == CaptureFront {
        tempImages := tempImages.(front := Some(base64));
        captureStep := CaptureLeft;
      } else if captureStep == CaptureLeft {
        tempImages := tempImages.(left := Some(base64));
        captureStep := CaptureRight;
      } else if captureStep == CaptureRight {
        var finalImages := tempImages.(right := Some(base64));
        tempImages := finalImages;
        UpdateProfile(SetSkinImages(Some(finalImages)));
        captureStep := Review;
      }
    }

    /** `startCapture`, offered only on the photo intro. */
    method StartCapture()
      requires Valid() && captureStep == Intro
      modifies this`captureStep
      ensures Valid() && captureStep == CaptureFront
    {
      captureStep := CaptureFront;
    }

    /** `resetCapture`: drop every photo and return to the intro. */
    method ResetCapture()
      requires Valid()
      modifies this`tempImages, this`captureStep, this`profile
      ensures Valid()
      ensures captureStep == Intro && tempImages == NoImages
      ensures profile == Apply(old(profile), SetSkinImages(None))
    {
      tempImages := NoImages;
      UpdateProfile(SetSkinImages(None));
      captureStep := Intro;
    }

    /** The name field of step 1. */
    method EnterName(name: string)
      requires Valid()
      modifies this`profile
      ensures Valid() && profile == Apply(old(profile), SetName(Some(name)))
    {
      UpdateProfile(SetName(Some(name)));
    }

    /** The age field of step 1, after `parseInt`. */
    method EnterAge(age: int)
      requires Valid()
      modifies this`profile
      ensures Valid() && profile == Apply(old(profile), SetAge(Some(age)))
    {
      UpdateProfile(SetAge(Some(age)));
    }

    /** Tapping a skin-type card on step 2. */
    method SelectSkinType(card: string)
      requires Valid() && card in SkinTypeLabels
      modifies this`profile
      ensures Valid() && profile == Apply(old(profile), SetSkinType(Some(LowerAscii(card))))
    {
      SkinTypeValuesAreLowerCaseLabels();
      UpdateProfile(SetSkinType(Some(LowerAscii(card))));
    }

    /** Tapping a goal card on step 4. */
    method ToggleGoal(goal: string)
      requires Valid()
      modifies this`profile
      ensures Valid()
      ensures profile == Apply(old(profile), SetGoals(Some(ToggledGoals(old(profile).goals.GetOr([]), goal))))
    {
      var current := profile.goals.GetOr([]);
      var updated := ToggledGoals(current, goal);
      ToggleKeepsSelectionValid(current, goal);
      UpdateProfile(SetGoals(Some(updated)));
    }

    /** Tapping a budget button on step 5. */
    method SelectBudget(budget: BudgetLevel)
      requires Valid()
      modifies this`profile
      ensures Valid() && profile == Apply(old(profile), SetBudget(Some(budget)))
    {
      UpdateProfile(SetBudget(Some(budget)));
    }

    /** The control that calls `nextStep` on the current screen. */
    function Continue(): (c: ContinueControl)
      reads this
      ensures c.NextButton? <==> step != 3
      ensures c.NextButton? ==> (c.enabled <==> !(step == 2 && !Truthy(profile.skinType)))
      ensures c == SkipPhotosLink <==> step == 3 && captureStep == Intro
      ensures c == ConfirmButton <==> step == 3 && captureStep == Review && profile.skinImages.Some?
    {
      if step != 3 then NextButton(!(step == 2 && !Truthy(profile.skinType)))
      else if captureStep == Intro then SkipPhotosLink
      else if captureStep == Review && profile.skinImages.Some? then ConfirmButton
      else NoControl
    }
  }

  /** On a consistent page the skin-type test of the Next button is a test
      for a chosen card: step 2 can be left forwards only once one of the
      four skin types is stored. */
  lemma NextOnSkinStepNeedsChoice(p: UserProfile)
    requires ProfileConsistent(p)
    ensures Truthy(p.skinType) <==> p.skinType.Some? && p.skinType.value in SkinTypeValues
  {
  }

  /** The photo flow from the intro: three scans store the three views, in
      order, in the profile. */
  method CaptureFlow(front: string, left: string, right: string) returns (stored: Option<SkinImages>)
    ensures stored == Some(SkinImages(Some(front), Some(left), Some(right)))
  {
    var page := new Onboarding();
    page.StartCapture();
    page.HandlePhotoScan(front);
    page.HandlePhotoScan(left);
    page.HandlePhotoScan(right);
    page.HandlePhotoScan("late scan");
    stored := page.profile.skinImages;
  }
}
