/** Plan generation: the deterministic rules engine, the assembly of the
    request sent to the vision model, and the fallback to the rules engine
    when that request fails (services/geminiService.ts). */
module GeminiService {
  import opened Types

  // ---------------------------------------------------------------------
  // Rules engine
  // ---------------------------------------------------------------------

  /** The only profile test the rules engine performs. */
  predicate IsDry(profile: UserProfile) {
    profile.skinType == Some("dry")
  }

  const DryCleanser := Product("Hydrating Milk Cleanser", "Generic Safe", "Glycerin, Ceramides", "Preserves moisture barrier.")
  const GelCleanser := Product("Clarifying Gel Cleanser", "Generic Safe", "Salicylic Acid, Niacinamide", "Controls excess sebum.")
  const Sunscreen := Product("Invisible Shield SPF 50", "Melanin Care", "Avobenzone, Vitamin E", "No white cast, full protection.")
  const Serum := Product("Brightening Serum", "Glow Lab", "Vitamin C, Alpha Arbutin", "Targets dark spots safely.")
  const SafetyNotes := ["Always patch test new products.", "Wear SPF daily, even indoors."]
  const PlanFocus := "Hydration and Protection"
  const CreamyCleanserTip := "Use a creamy, non-foaming cleanser."
  const FoamingCleanserTip := "Use a gentle foaming cleanser."

  /** The steps and the weekly action that are the same for every profile. */
  const ProtectStep := RoutineStep(2, "Hydrate & Protect", "Apply moisturizer with SPF 30+.", "30 seconds",
                                   "Moisturizer + SPF", Some(Sunscreen))
  const DoubleCleanseStep := RoutineStep(1, "Double Cleanse", "Remove SPF and pollutants thoroughly.", "2 minutes",
                                         "Oil Cleanser + Water Cleanser", None)
  const TreatStep := RoutineStep(2, "Treat", "Apply active treatment for hyperpigmentation.", "Overnight", "Serum",
                                 Some(Serum))
  const Exfoliation := WeeklyAction("Exfoliate", "1-2x per week", "Use a gentle chemical exfoliant (AHA/BHA).")

  /** The fixed routine template; only the morning cleanser depends on the
      profile, and only through `IsDry`. */
  function RulesBasedPlan(profile: UserProfile): (plan: TodayPlan)
    ensures |plan.morning| == 2 && |plan.evening| == 2 && |plan.weekly| == 1
    ensures forall i :: 0 <= i < 2 ==> plan.morning[i].stepOrder == i + 1 && plan.evening[i].stepOrder == i + 1
    ensures plan.weekly[0].title == "Exfoliate" && plan.weekly[0].frequency == "1-2x per week"
    ensures plan.evening[0].recommendedProduct == None
    ensures plan.morning[0].recommendedProduct.Some? && plan.morning[1].recommendedProduct == Some(Sunscreen)
    ensures plan.evening[1].recommendedProduct == Some(Serum)
    ensures plan.meta == PlanMeta(PlanFocus, SafetyNotes)
  {
    var isDry := IsDry(profile);
    TodayPlan(
      [ RoutineStep(1, "Cleanse", if isDry then CreamyCleanserTip else FoamingCleanserTip, "60 seconds", "Cleanser",
                    // `generateRulesBasedPlan` switches each product field on `isDry`
                    Some(if isDry then DryCleanser else GelCleanser)),
        ProtectStep
      ],
      [ DoubleCleanseStep, TreatStep ],
      [ Exfoliation ],
      PlanMeta(PlanFocus, SafetyNotes))
  }

  /** The first morning product, its instructions, ingredients and rationale
      all switch on the dryness test, in both directions. */
  lemma CleanserFollowsSkinType(profile: UserProfile)
    ensures RulesBasedPlan(profile).morning[0].recommendedProduct == Some(if IsDry(profile) then DryCleanser else GelCleanser)
    ensures RulesBasedPlan(profile).morning[0].recommendedProduct.value.name == "Hydrating Milk Cleanser" <==> IsDry(profile)
    ensures RulesBasedPlan(profile).morning[0].instructions == CreamyCleanserTip <==> IsDry(profile)
    ensures !IsDry(profile) ==> RulesBasedPlan(profile).morning[0].instructions == FoamingCleanserTip
  {
  }

  /** Two profiles that agree on the dryness test get identical plans. */
  lemma PlanDependsOnlyOnDryness(p: UserProfile, q: UserProfile)
    requires IsDry(p) == IsDry(q)
    ensures RulesBasedPlan(p) == RulesBasedPlan(q)
  {
  }

  /** Everything except the first morning step is the same for every profile. */
  lemma TemplateIsFixed(p: UserProfile, q: UserProfile)
    ensures RulesBasedPlan(p).morning[1] == RulesBasedPlan(q).morning[1]
    ensures RulesBasedPlan(p).evening == RulesBasedPlan(q).evening
    ensures RulesBasedPlan(p).weekly == RulesBasedPlan(q).weekly
    ensures RulesBasedPlan(p).meta == RulesBasedPlan(q).meta
    ensures RulesBasedPlan(p).morning[0].title == RulesBasedPlan(q).morning[0].title == "Cleanse"
  {
  }

  // ---------------------------------------------------------------------
  // Request assembly
  // ---------------------------------------------------------------------

  /** The formats accepted by the prefix pattern `^data:image\/(png|jpg|jpeg|webp);base64,`. */
  const ImageFormats: seq<string> := ["png", "jpg", "jpeg", "webp"]

  function DataUrlPrefix(format: string): string {
    "data:image/" + format + ";base64,"
  }

  predicate HasDataUrlPrefix(s: string) {
    exists f :: f in ImageFormats && DataUrlPrefix(f) <= s
  }

  /** No string starts with the prefixes of two different formats, so the
      alternatives of the pattern never compete. */
  lemma PrefixesExclusive(f: string, g: string, s: string)
    requires f in ImageFormats && g in ImageFormats
    requires DataUrlPrefix(f) <= s && DataUrlPrefix(g) <= s
    ensures f == g
  {
    // "data:image/" has eleven characters; the first and third letters of
    // the format tell the four formats apart.
    assert DataUrlPrefix(f)[11] == f[0] && DataUrlPrefix(f)[13] == f[2];
    assert DataUrlPrefix(g)[11] == g[0] && DataUrlPrefix(g)[13] == g[2];
    assert f[0] == s[11] == g[0] && f[2] == s[13] == g[2];
  }

  /** `clean`: remove one leading data-URL prefix, if there is one. */
  function Clean(b64: string): string {
    if DataUrlPrefix("png") <= b64 then b64[|DataUrlPrefix("png")|..]
    else if DataUrlPrefix("jpg") <= b64 then b64[|DataUrlPrefix("jpg")|..]
    else if DataUrlPrefix("jpeg") <= b64 then b64[|DataUrlPrefix("jpeg")|..]
    else if DataUrlPrefix("webp") <= b64 then b64[|DataUrlPrefix("webp")|..]
    else b64
  }

  /** A string without a data-URL prefix is left as it is; otherwise exactly
      one matching prefix is removed. */
  lemma CleanRemovesOnePrefix(b64: string)
    ensures !HasDataUrlPrefix(b64) ==> Clean(b64) == b64
    ensures HasDataUrlPrefix(b64) ==>
      exists f :: f in ImageFormats && DataUrlPrefix(f) <= b64 && Clean(b64) == b64[|DataUrlPrefix(f)|..]
  {
    if DataUrlPrefix("png") <= b64 {
      assert "png" in ImageFormats;
    } else if DataUrlPrefix("jpg") <= b64 {
      assert "jpg" in ImageFormats;
    } else if DataUrlPrefix("jpeg") <= b64 {
      assert "jpeg" in ImageFormats;
    } else if DataUrlPrefix("webp") <= b64 {
      assert "webp" in ImageFormats;
    }
  }

  /** Cleaning a data URL yields exactly its payload: one prefix is removed,
      even when the payload itself begins with another prefix. */
  lemma CleanDataUrl(format: string, payload: string)
    requires format in ImageFormats
    ensures Clean(DataUrlPrefix(format) + payload) == payload
  {
    var s := DataUrlPrefix(format) + payload;
    assert DataUrlPrefix(format) <= s;
    CleanRemovesOnePrefix(s);
    forall g | g in ImageFormats && DataUrlPrefix(g) <= s ensures g == format {
      PrefixesExclusive(g, format, s);
    }
    assert s[|DataUrlPrefix(format)|..] == payload;
  }

  datatype View = Front | Left | Right

  datatype Part = InlineData(mimeType: string, data: string) | TextPart(text: string)

  function ImageOf(images: SkinImages, v: View): Option<string> {
    match v
    case Front => images.front
    case Left => images.left
    case Right => images.right
  }

  function Rank(v: View): nat {
    match v
    case Front => 0
    case Left => 1
    case Right => 2
  }

  const FrontLabel := "Image 1: Front Face View"
  const LeftLabel := "Image 2: Left Profile View"
  const RightLabel := "Image 3: Right Profile View"
  const PromptIntro := "Analyze these skin images for a skincare routine. User Profile: "

  function ViewLabel(v: View): string {
    match v
    case Front => FrontLabel
    case Left => LeftLabel
    case Right => RightLabel
  }

  function Prompt(profileJson: string): string {
    PromptIntro + profileJson
  }

  /** The views whose image is present, in the order front, left, right. */
  function PresentViews(images: SkinImages): (vs: seq<View>)
    ensures forall v :: v in vs <==> Truthy(ImageOf(images, v))
    ensures forall i, j :: 0 <= i < j < |vs| ==> Rank(vs[i]) < Rank(vs[j])
  {
    (if Truthy(images.front) then [Front] else [])
    + (if Truthy(images.left) then [Left] else [])
    + (if Truthy(images.right) then [Right] else [])
  }

  /** The two parts pushed for view `v`: its image as JPEG inline data, then
      its label. */
  function ViewParts(images: SkinImages, v: View): seq<Part> {
    [InlineData("image/jpeg", Clean(ImageOf(images, v).GetOr(""))), TextPart(ViewLabel(v))]
  }

  /** The parts the block for view `v` pushes: none when its image is absent. */
  function PushedParts(images: SkinImages, v: View): seq<Part> {
    if Truthy(ImageOf(images, v)) then ViewParts(images, v) else []
  }

  /** The parts of each view in turn. */
  function ImageParts(images: SkinImages, vs: seq<View>): seq<Part> {
    if vs == [] then [] else ViewParts(images, vs[0]) + ImageParts(images, vs[1..])
  }

  /** The `parts` list of the request. */
  function RequestParts(images: SkinImages, profileJson: string): (parts: seq<Part>)
    ensures |parts| == 2 * |PresentViews(images)| + 1
    ensures parts[|parts| - 1] == TextPart(Prompt(profileJson))
  {
    ImagePartsLength(images, PresentViews(images));
    ImageParts(images, PresentViews(images)) + [TextPart(Prompt(profileJson))]
  }

  lemma {:induction false} ImagePartsLength(images: SkinImages, vs: seq<View>)
    ensures |ImageParts(images, vs)| == 2 * |vs|
  {
    if vs != [] {
      ImagePartsLength(images, vs[1..]);
    }
  }

  lemma {:induction false} ImagePartsAt(images: SkinImages, vs: seq<View>, i: nat)
    requires i < |vs|
    ensures |ImageParts(images, vs)| == 2 * |vs|
    ensures ImageParts(images, vs)[2 * i] == ViewParts(images, vs[i])[0]
    ensures ImageParts(images, vs)[2 * i + 1] == ViewParts(images, vs[i])[1]
  {
    ImagePartsLength(images, vs);
    if i > 0 {
      var head := ViewParts(images, vs[0]);
      var rest := ImageParts(images, vs[1..]);
      assert ImageParts(images, vs) == head + rest;
      ImagePartsAt(images, vs[1..], i - 1);
      assert vs[1..][i - 1] == vs[i];
    }
  }

  /** Appending a view appends its two parts. */
  lemma {:induction false} ImagePartsSnoc(images: SkinImages, vs: seq<View>, v: View)
    ensures ImageParts(images, vs + [v]) == ImageParts(images, vs) + ViewParts(images, v)
  {
    if vs == [] {
      assert vs + [v] == [v];
      assert [v][1..] == [];
    } else {
      assert (vs + [v])[1..] == vs[1..] + [v];
      ImagePartsSnoc(images, vs[1..], v);
    }
  }

  /** For the k present images the request has 2k+1 parts: each image as
      JPEG inline data followed by its label, then the prompt. */
  lemma RequestPartsShape(images: SkinImages, profileJson: string)
    ensures |RequestParts(images, profileJson)| == 2 * |PresentViews(images)| + 1
    ensures RequestParts(images, profileJson)[2 * |PresentViews(images)|] == TextPart(Prompt(profileJson))
    ensures forall i :: 0 <= i < |PresentViews(images)| ==>
      var v := PresentViews(images)[i];
      && Truthy(ImageOf(images, v))
      && RequestParts(images, profileJson)[2 * i] == InlineData("image/jpeg", Clean(ImageOf(images, v).value))
      && RequestParts(images, profileJson)[2 * i + 1] == TextPart(ViewLabel(v))
  {
    var vs := PresentViews(images);
    ImagePartsLength(images, vs);
    forall i | 0 <= i < |vs|
      ensures RequestParts(images, profileJson)[2 * i] == InlineData("image/jpeg", Clean(ImageOf(images, vs[i]).value))
      ensures RequestParts(images, profileJson)[2 * i + 1] == TextPart(ViewLabel(vs[i]))
    {
      assert vs[i] in vs;
      ImagePartsAt(images, vs, i);
    }
  }

  /** The image parts of the request are those of the front, left and right
      blocks in turn. */
  lemma PresentImageParts(images: SkinImages)
    ensures ImageParts(images, PresentViews(images))
         == PushedParts(images, Front) + PushedParts(images, Left) + PushedParts(images, Right)
  {
    var f: seq<View> := if Truthy(images.front) then [Front] else [];
    var l: seq<View> := if Truthy(images.left) then [Left] else [];
    var r: seq<View> := if Truthy(images.right) then [Right] else [];
    if Truthy(images.front) {
      ImagePartsSnoc(images, [], Front);
      assert [] + [Front] == f;
    }
    assert ImageParts(images, f) == PushedParts(images, Front);
    if Truthy(images.left) {
      ImagePartsSnoc(images, f, Left);
    } else {
      assert f + l == f;
    }
    assert ImageParts(images, f + l) == PushedParts(images, Front) + PushedParts(images, Left);
    if Truthy(images.right) {
      ImagePartsSnoc(images, f + l, Right);
    } else {
      assert f + l + r == f + l;
    }
  }

  /** One `if (images.x) { parts.push(image); parts.push(label); }` block. */
  method PushImage(parts: seq<Part>, image: Option<string>, caption: string) returns (out: seq<Part>)
    ensures Truthy(image) ==> out == parts + [InlineData("image/jpeg", Clean(image.value)), TextPart(caption)]
    ensures !Truthy(image) ==> out == parts
  {
    out := parts;
    if Truthy(image) {
      out := out + [InlineData("image/jpeg", Clean(image.value))];
      out := out + [TextPart(caption)];
    }
  }

  /** Builds `parts` by successive pushes, as `analyzeSkin` does. */
  method BuildParts(images: SkinImages, profileJson: string) returns (parts: seq<Part>)
    ensures parts == RequestParts(images, profileJson)
  {
    parts := [];
    parts := PushImage(parts, images.front, FrontLabel);
    assert parts == PushedParts(images, Front);
    parts := PushImage(parts, images.left, LeftLabel);
    assert parts == PushedParts(images, Front) + PushedParts(images, Left);
    parts := PushImage(parts, images.right, RightLabel);
    PresentImageParts(images);
    assert parts == ImageParts(images, PresentViews(images));
    parts := parts + [TextPart(Prompt(profileJson))];
  }

  // ---------------------------------------------------------------------
  // The remote call and its fallback
  // ---------------------------------------------------------------------

  /** What `generateContent` does: resolve with a reply text ("" when the
      reply has no text) or reject (network error, refusal, ...). */
  datatype Reply = Response(text: string) | Rejected

  datatype AnalysisError = MissingApiKey

  /** The plan `analyzeSkin` settles on once the request is sent: the parsed
      reply when there is one, the rules plan for the same profile otherwise. */
  function PlanOrFallback(reply: Reply, parse: string -> Option<TodayPlan>, profile: UserProfile): (plan: TodayPlan)
    ensures plan == RulesBasedPlan(profile) || (reply.Response? && reply.text != "" && parse(reply.text) == Some(plan))
    ensures (reply.Rejected? || reply.text == "" || parse(reply.text).None?) ==> plan == RulesBasedPlan(profile)
    ensures reply.Response? && reply.text != "" && parse(reply.text).Some? ==> plan == parse(reply.text).value
  {
    match reply
    case Rejected => RulesBasedPlan(profile)
    case Response(text) =>
      if text == "" then RulesBasedPlan(profile)
      else match parse(text)
        case Some(p) => p
        case None => RulesBasedPlan(profile)
  }

  /** `analyzeSkin`: throws when the API key is missing, before any request;
      otherwise sends the request and never fails. `request` is the list of
      parts sent to the model, if any. */
  method AnalyzeSkin(images: SkinImages, profile: UserProfile, apiKey: Option<string>,
                     stringify: UserProfile -> string,
                     generate: seq<Part> -> Reply,
                     parse: string -> Option<TodayPlan>)
    returns (result: Result<TodayPlan, AnalysisError>, request: Option<seq<Part>>)
    ensures result.Failure? <==> !Truthy(apiKey)
    ensures result.Failure? ==> result.error == MissingApiKey && request == None
    ensures result.Success? ==>
      && request == Some(RequestParts(images, stringify(profile)))
      && result.value == PlanOrFallback(generate(request.value), parse, profile)
  {
    if !Truthy(apiKey) {
      return Failure(MissingApiKey), None;
    }
    var parts := BuildParts(images, stringify(profile));
    request := Some(parts);
    var reply := generate(parts);
    match reply {
      case Rejected =>
        result := Success(RulesBasedPlan(profile));
      case Response(text) =>
        if text != "" {
          var parsed := parse(text);
          if parsed.Some? {
            return Success(parsed.value), request;
          }
        }
        result := Success(RulesBasedPlan(profile));
    }
  }
}
