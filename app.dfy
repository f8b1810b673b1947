/** The application shell (App.tsx): which view is shown, and the plan
    produced when onboarding completes. */
module App {
  import opened Types
  import GeminiService

  datatype ViewState = Landing | Onboarding | Dashboard | Evolution | Products

  /** What the shell renders. */
  datatype Screen =
    | LoadingScreen(message: string)
    | LandingScreen
    | OnboardingScreen
    | DashboardScreen(plan: TodayPlan, user: UserProfile)
    | EvolutionScreen
    | ProductsScreen
    | Blank

  const AnalyzingMessage := "Analyzing your unique skin profile..."
  const DesigningMessage := "Designing your routine..."

  /** The guard of App.tsx:44: a profile goes to the vision model when it has
      photos and at least one of them is non-empty. */
  predicate UsesAi(profile: UserProfile): (b: bool)
    ensures b <==> profile.skinImages.Some? && GeminiService.PresentViews(profile.skinImages.value) != []
  {
    profile.skinImages.Some?
    && (Truthy(profile.skinImages.value.front) || Truthy(profile.skinImages.value.left)
        || Truthy(profile.skinImages.value.right))
  }

  /** Whenever the vision model is used, its request carries at least one
      image with its label ahead of the prompt. */
  lemma AiRequestHasImages(profile: UserProfile, profileJson: string)
    requires UsesAi(profile)
    ensures GeminiService.PresentViews(profile.skinImages.value) != []
    ensures |GeminiService.RequestParts(profile.skinImages.value, profileJson)| >= 3
  {
    var images := profile.skinImages.value;
    var views := GeminiService.PresentViews(images);
    if Truthy(images.front) {
      assert GeminiService.Front in views;
    } else if Truthy(images.left) {
      assert GeminiService.Left in views;
    } else {
      assert GeminiService.Right in views;
    }
    GeminiService.RequestPartsShape(images, profileJson);
  }

  /** The target view of a bottom-bar tab, if the tab is known. */
  function TabTarget(tabId: string): (v: Option<ViewState>)
    ensures v == Some(Dashboard) <==> tabId == "today"
    ensures v == Some(Evolution) <==> tabId == "evolution"
    ensures v == Some(Products) <==> tabId == "products"
    ensures v.None? <==> tabId !in ["today", "evolution", "products"]
  {
    if tabId == "today" then Some(Dashboard)
    else if tabId == "evolution" then Some(Evolution)
    else if tabId == "products" then Some(Products)
    else None
  }

  /** The text under the spinner while a plan is generated. */
  function LoadingMessage(userProfile: Option<UserProfile>): (m: string)
    ensures m == AnalyzingMessage <==> userProfile.Some? && userProfile.value.skinImages.Some?
    ensures m == AnalyzingMessage || m == DesigningMessage
  {
    if userProfile.Some? && userProfile.value.skinImages.Some? then AnalyzingMessage else DesigningMessage
  }

  /** The `try`/`catch` of `handleOnboardingComplete`: the vision model when
      a photo is present, the rules engine otherwise or when `analyzeSkin`
      throws. `aiCall` is the photo set passed to `analyzeSkin`, if any. */
  method ChoosePlan(profile: UserProfile, apiKey: Option<string>,
                    stringify: UserProfile -> string,
                    generate: seq<GeminiService.Part> -> GeminiService.Reply,
                    parse: string -> Option<TodayPlan>)
    returns (aiCall: Option<SkinImages>, plan: TodayPlan)
    ensures aiCall == (if UsesAi(profile) then profile.skinImages else None)
    ensures (!UsesAi(profile) || !Truthy(apiKey)) ==> plan == GeminiService.RulesBasedPlan(profile)
    ensures UsesAi(profile) && Truthy(apiKey) ==>
      plan == GeminiService.PlanOrFallback(
        generate(GeminiService.RequestParts(profile.skinImages.value, stringify(profile))), parse, profile)
  {
    if UsesAi(profile) {
      aiCall := profile.skinImages;
      var result, _ := GeminiService.AnalyzeSkin(profile.skinImages.value, profile, apiKey, stringify, generate, parse);
      match result {
        case Success(p) =>
          plan := p;
        case Failure(_) =>
          // the catch block
          plan := GeminiService.RulesBasedPlan(profile);
      }
    } else {
      aiCall := None;
      plan := GeminiService.RulesBasedPlan(profile);
    }
  }

  class AppState {
    var view: ViewState
    var userProfile: Option<UserProfile>
    var currentPlan: Option<TodayPlan>
    var loading: bool
    var activeTab: string

    constructor ()
      ensures view == Landing && userProfile == None && currentPlan == None && !loading && activeTab == "today"
    {
      view := Landing;
      userProfile := None;
      currentPlan := None;
      loading := false;
      activeTab := "today";
    }

    /** `handleStart`, from the landing page. */
    method HandleStart()
      modifies this`view
      ensures view == Onboarding
    {
      view := Onboarding;
    }

    /** `goHome`, and the onboarding page's `onBack`, which does the same. */
    method GoHome()
      modifies this`view
      ensures view == Landing
    {
      view := Landing;
    }

    /** `handleTabChange` */
    method HandleTabChange(tabId: string)
      modifies this`activeTab, this`view
      ensures activeTab == tabId
      ensures view == TabTarget(tabId).GetOr(old(view))
    {
      activeTab := tabId;
      if tabId == "today" {
        view := Dashboard;
      } else if tabId == "evolution" {
        view := Evolution;
      } else if tabId == "products" {
        view := Products;
      }
    }

    /** `handleOnboardingComplete`. `aiCall` is the photo set passed to
        `analyzeSkin`, if it was called; `loadingText` is what the loading
        screen shows while the plan is generated. */
    method HandleOnboardingComplete(profile: UserProfile, apiKey: Option<string>,
                                    stringify: UserProfile -> string,
                                    generate: seq<GeminiService.Part> -> GeminiService.Reply,
                                    parse: string -> Option<TodayPlan>)
      returns (aiCall: Option<SkinImages>, loadingText: string)
      modifies this`loading, this`userProfile, this`currentPlan, this`view
      ensures aiCall == (if UsesAi(profile) then profile.skinImages else None)
      ensures loadingText == LoadingMessage(Some(profile))
      ensures userProfile == Some(profile) && !loading && view == Dashboard && currentPlan.Some?
      ensures (!UsesAi(profile) || !Truthy(apiKey)) ==> currentPlan == Some(GeminiService.RulesBasedPlan(profile))
      ensures UsesAi(profile) && Truthy(apiKey) ==>
        currentPlan == Some(GeminiService.PlanOrFallback(
          generate(GeminiService.RequestParts(profile.skinImages.value, stringify(profile))), parse, profile))
      ensures Render() == DashboardScreen(currentPlan.value, profile)
    {
      loading := true;
      userProfile := Some(profile);
      loadingText := Render().message;
      var plan;
      aiCall, plan := ChoosePlan(profile, apiKey, stringify, generate, parse);
      currentPlan := Some(plan);
      loading := false;
      view := Dashboard;
    }

    /** The screen for the current state: the loading screen while a plan is
        generated, the dashboard only with both a plan and a profile. */
    function Render(): (s: Screen)
      reads this
      ensures loading <==> s.LoadingScreen?
      ensures loading ==> s.message == LoadingMessage(userProfile)
      ensures s.DashboardScreen? <==> !loading && view == Dashboard && currentPlan.Some? && userProfile.Some?
      ensures s.DashboardScreen? ==> s.plan == currentPlan.value && s.user == userProfile.value
      ensures s == Blank <==> !loading && view == Dashboard && (currentPlan.None? || userProfile.None?)
    {
      if loading then LoadingScreen(LoadingMessage(userProfile))
      else match view
        case Landing => LandingScreen
        case Onboarding => OnboardingScreen
        case Dashboard =>
          if currentPlan.Some? && userProfile.Some? then DashboardScreen(currentPlan.value, userProfile.value) else Blank
        case Evolution => EvolutionScreen
        case Products => ProductsScreen
    }
  }
}
