/** The data model of the skincare coach: the profile collected during
    onboarding and the plan produced from it (types.ts:10-58). */
module Types {

  /** An optional field of a TypeScript interface (`field?: T`); a field set
      to `undefined` is `None` as well. */
  datatype Option<+T> = None | Some(value: T) {
    function GetOr(default: T): T {
      match this
      case Some(v) => v
      case None => default
    }
  }

  /** An operation that either produces a value or throws. */
  datatype Result<+T, +E> = Success(value: T) | Failure(error: E)

  /** JavaScript truthiness of an optional string: both `undefined` and the
      empty string are falsy. */
  predicate Truthy(s: Option<string>) {
    s.Some? && s.value != ""
  }

  datatype Sensitivity = Low | Medium | High

  /** The three budget levels 'budget' | 'standard' | 'premium'. */
  datatype BudgetLevel = Budget | Standard | Premium

  /** The encoded photos stored in a profile (each an image data URL). */
  datatype SkinImages = SkinImages(front: Option<string>, left: Option<string>, right: Option<string>)

  const NoImages := SkinImages(None, None, None)

  datatype UserProfile = UserProfile(
    name: Option<string>,
    age: Option<int>,
    gender: Option<string>,
    location: Option<string>,
    climate: Option<string>,
    skinType: Option<string>,
    sensitivity: Option<Sensitivity>,
    shaving: Option<string>,
    skinHistory: Option<string>,
    goals: Option<seq<string>>,
    currentRoutine: Option<string>,
    budget: Option<BudgetLevel>,
    skinImages: Option<SkinImages>)

  /** The profile `{}` that onboarding starts from. */
  const EmptyProfile := UserProfile(None, None, None, None, None, None, None, None, None, None, None, None, None)

  datatype Product = Product(name: string, brand: string, keyIngredients: string, whyThisProduct: string)

  datatype RoutineStep = RoutineStep(
    stepOrder: int,
    title: string,
    instructions: string,
    timing: string,
    productCategory: string,
    recommendedProduct: Option<Product>)

  datatype WeeklyAction = WeeklyAction(title: string, frequency: string, instructions: string)

  datatype PlanMeta = PlanMeta(focus: string, safetyNotes: seq<string>)

  datatype TodayPlan = TodayPlan(
    morning: seq<RoutineStep>,
    evening: seq<RoutineStep>,
    weekly: seq<WeeklyAction>,
    meta: PlanMeta)
}
