/** The product shelf (pages/ProductsPage.tsx): one entry per routine step
    that recommends a product, morning steps first. */
module ProductsPage {
  import opened Types
  import GeminiService

  datatype Period = AM | PM

  datatype ShelfEntry = ShelfEntry(
    name: string,
    brand: string,
    keyIngredients: string,
    whyThisProduct: string,
    category: string,
    period: Period)

  /** `{ ...step.recommendedProduct, category: step.productCategory, period }` */
  function EntryFor(step: RoutineStep, period: Period): (e: ShelfEntry)
    requires step.recommendedProduct.Some?
    ensures Product(e.name, e.brand, e.keyIngredients, e.whyThisProduct) == step.recommendedProduct.value
    ensures e.category == step.productCategory && e.period == period
  {
    var p := step.recommendedProduct.value;
    ShelfEntry(p.name, p.brand, p.keyIngredients, p.whyThisProduct, step.productCategory, period)
  }

  /** The steps that carry a product, in their order. */
  function WithProduct(steps: seq<RoutineStep>): (r: seq<RoutineStep>)
    ensures forall i :: 0 <= i < |r| ==> r[i].recommendedProduct.Some?
    ensures |r| <= |steps|
  {
    if steps == [] then []
    else
      var last := steps[|steps| - 1];
      WithProduct(steps[..|steps| - 1]) + if last.recommendedProduct.Some? then [last] else []
  }

  /** What `extract(steps, period)` pushes, in order. */
  function Entries(steps: seq<RoutineStep>, period: Period): (r: seq<ShelfEntry>)
    ensures forall i :: 0 <= i < |r| ==> r[i].period == period
  {
    if steps == [] then []
    else
      var last := steps[|steps| - 1];
      Entries(steps[..|steps| - 1], period) + if last.recommendedProduct.Some? then [EntryFor(last, period)] else []
  }

  /** The shelf of a plan: nothing without a plan, else the morning entries
      then the evening entries. */
  function Shelf(plan: Option<TodayPlan>): (shelf: seq<ShelfEntry>)
    ensures plan.None? ==> shelf == []
    ensures plan.Some? ==> |shelf| == |WithProduct(plan.value.morning)| + |WithProduct(plan.value.evening)|
  {
    match plan
    case None => []
    case Some(p) =>
      EntriesFollowSteps(p.morning, AM);
      EntriesFollowSteps(p.evening, PM);
      Entries(p.morning, AM) + Entries(p.evening, PM)
  }

  /** `extract`: the `forEach` over the steps, pushing onto `products`. */
  method Extract(steps: seq<RoutineStep>, period: Period, products: seq<ShelfEntry>) returns (out: seq<ShelfEntry>)
    ensures out == products + Entries(steps, period)
  {
    out := products;
    for i := 0 to |steps|
      invariant out == products + Entries(steps[..i], period)
    {
      assert steps[..i + 1][..i] == steps[..i];
      var step := steps[i];
      if step.recommendedProduct.Some? {
        out := out + [EntryFor(step, period)];
      }
    }
    assert steps[..|steps|] == steps;
  }

  /** The `products` list the page renders. */
  method Products(plan: Option<TodayPlan>) returns (products: seq<ShelfEntry>)
    ensures products == Shelf(plan)
  {
    products := [];
    if plan.Some? {
      products := Extract(plan.value.morning, AM, products);
      products := Extract(plan.value.evening, PM, products);
    }
  }

  /** Exactly one entry per step with a product, copying the product's fields
      and the step's category, in step order. */
  lemma {:induction false} EntriesFollowSteps(steps: seq<RoutineStep>, period: Period)
    ensures |Entries(steps, period)| == |WithProduct(steps)|
    ensures forall k :: 0 <= k < |WithProduct(steps)| ==> Entries(steps, period)[k] == EntryFor(WithProduct(steps)[k], period)
  {
    if steps != [] {
      EntriesFollowSteps(steps[..|steps| - 1], period);
    }
  }

  /** Steps without a product contribute nothing. */
  lemma {:induction false} NoProductNoEntries(steps: seq<RoutineStep>, period: Period)
    requires forall i :: 0 <= i < |steps| ==> steps[i].recommendedProduct.None?
    ensures Entries(steps, period) == [] && WithProduct(steps) == []
  {
    if steps != [] {
      NoProductNoEntries(steps[..|steps| - 1], period);
    }
  }

  /** No step is kept exactly when no step recommends a product. */
  lemma {:induction false} WithProductEmpty(steps: seq<RoutineStep>)
    ensures WithProduct(steps) == [] <==> forall i :: 0 <= i < |steps| ==> steps[i].recommendedProduct.None?
  {
    if steps != [] {
      WithProductEmpty(steps[..|steps| - 1]);
      var last := steps[|steps| - 1];
      if last.recommendedProduct.None? {
        assert forall i :: 0 <= i < |steps| - 1 ==> steps[..|steps| - 1][i] == steps[i];
      }
    }
  }

  /** All morning entries come before all evening entries. */
  lemma AmBeforePm(plan: TodayPlan)
    ensures forall i, j :: 0 <= i < j < |Shelf(Some(plan))| && Shelf(Some(plan))[i].period == PM ==> Shelf(Some(plan))[j].period == PM
    ensures Shelf(Some(plan))[..|Entries(plan.morning, AM)|] == Entries(plan.morning, AM)
  {
    var m := Entries(plan.morning, AM);
    var e := Entries(plan.evening, PM);
    assert forall i :: 0 <= i < |m| ==> (m + e)[i] == m[i];
    assert forall i :: |m| <= i < |m + e| ==> (m + e)[i] == e[i - |m|];
  }

  /** The shelf is empty, and the page shows its empty state, exactly when
      there is no plan or no step of it recommends a product. */
  lemma ShelfEmptyIff(plan: Option<TodayPlan>)
    ensures Shelf(plan) == [] <==>
      plan.None?
      || ((forall i :: 0 <= i < |plan.value.morning| ==> plan.value.morning[i].recommendedProduct.None?)
          && (forall i :: 0 <= i < |plan.value.evening| ==> plan.value.evening[i].recommendedProduct.None?))
  {
    if plan.Some? {
      EntriesFollowSteps(plan.value.morning, AM);
      EntriesFollowSteps(plan.value.evening, PM);
      WithProductEmpty(plan.value.morning);
      WithProductEmpty(plan.value.evening);
    }
  }

  /** The rules plan's shelf: the cleanser and the sunscreen (am), then the
      serum (pm). */
  lemma RulesPlanShelf(profile: UserProfile)
    ensures var shelf := Shelf(Some(GeminiService.RulesBasedPlan(profile)));
      && |shelf| == 3
      && shelf[0].period == AM && shelf[1].period == AM && shelf[2].period == PM
      && shelf[0].name == (if GeminiService.IsDry(profile) then "Hydrating Milk Cleanser" else "Clarifying Gel Cleanser")
      && shelf[1] == ShelfEntry("Invisible Shield SPF 50", "Melanin Care", "Avobenzone, Vitamin E",
                                "No white cast, full protection.", "Moisturizer + SPF", AM)
      && shelf[2] == ShelfEntry("Brightening Serum", "Glow Lab", "Vitamin C, Alpha Arbutin",
                                "Targets dark spots safely.", "Serum", PM)
  {
    var plan := GeminiService.RulesBasedPlan(profile);
    GeminiService.CleanserFollowsSkinType(profile);
    var m := plan.morning;
    var e := plan.evening;
    assert m[..1][..0] == [] && m[..2][..1] == m[..1] && m == m[..2];
    assert Entries(m[..1], AM) == [EntryFor(m[0], AM)];
    assert Entries(m, AM) == [EntryFor(m[0], AM), EntryFor(m[1], AM)];
    assert e[..1][..0] == [] && e == e[..2] && e[..2][..1] == e[..1];
    assert Entries(e[..1], PM) == [];
    assert Entries(e, PM) == [EntryFor(e[1], PM)];
  }
}
