# Skincare coach: onboarding, plan generation and product shelf

This project models the sequential logic of a small skincare-coaching web
client and proves properties of it. It covers:

- the rules engine, which maps a profile to a fixed daily plan that depends on one thing: whether the skin type is `dry`;
- the AI path, which builds the request for the vision model from the photos present and falls back to the rules plan on any failure;
- the five-step onboarding questionnaire: back and next, the nested photo-capture flow (intro, front, left, right, review), the goal toggle capped at three, and the Next-button guard;
- the application shell, which picks the AI or the rules path, always ends on the dashboard with a plan, and routes the bottom-bar tabs;
- the product shelf built from a plan;
- the scanner: the image-file filter, the downscaling rule and the camera-error messages, plus the camera and flash flags.

Modules follow the source files: `Types` (types.ts), `GeminiService`
(services/geminiService.ts), `OnboardingPage`, `App`, `ProductsPage` and
`Scanner`. Pure code (the rules engine, `clean`, the goal toggle) is written
as functions. Code that changes state is written as classes whose methods
change their fields: the onboarding page (`OnboardingPage.Onboarding`), the
app shell (`App.AppState`) and the scanner (`Scanner.ScannerState`). Code that
builds a list step by step is written as methods, each proved equal to a
specification function: `BuildParts` (successive pushes, one block per view) and `Extract`
(a `forEach` loop).

JavaScript truthiness is modelled where the code relies on it. `Truthy(s)` is
false for an absent string and for `""`. It is used for `if (images.front)`,
`!apiKey`, `!profile.skinType` and the image test of App.tsx:44.

Foreign calls are parameters:

- the vision model call is `generate: seq<Part> -> Reply`;
- `JSON.parse` of the reply is `parse: string -> Option<TodayPlan>`;
- `JSON.stringify(profile)` is `stringify`;
- `process.env.API_KEY` is `apiKey: Option<string>`;
- `getUserMedia` is a `CameraAccess` outcome;
- the video element's state and the encoded frame are method arguments.

The code has no subscription tiers and no age gate. The onboarding has
exactly five steps and always asks for three photos.

## Model

| member | source | states |
|---|---|---|
| GeminiService.RulesBasedPlan | services/geminiService.ts:10-77 | Morning and evening each have two steps numbered 1 then 2, and there is one weekly action ("Exfoliate", "1-2x per week"). Evening step 1 has no product; the other three steps have one (sunscreen, serum). The focus is "Hydration and Protection" and the two safety notes are fixed. |
| GeminiService.CleanserFollowsSkinType | services/geminiService.ts:12-27 | The first morning product is the hydrating milk cleanser exactly when the skin type is "dry", otherwise the clarifying gel cleanser. Its instructions switch on the same test. |
| GeminiService.PlanDependsOnlyOnDryness | services/geminiService.ts:10-77 | Two profiles that agree on the dryness test get identical plans. |
| GeminiService.TemplateIsFixed | services/geminiService.ts:29-75 | Every part of the plan except the first morning step is the same for all profiles. |
| GeminiService.PrefixesExclusive | services/geminiService.ts:87 | No string starts with the data-URL prefixes of two different formats, so the alternatives of the pattern never compete. |
| GeminiService.CleanRemovesOnePrefix | services/geminiService.ts:87 | `Clean`, the model of `clean`: a string with no data-URL prefix is returned unchanged. Otherwise the result is the string with exactly one matching prefix removed. |
| GeminiService.CleanDataUrl | services/geminiService.ts:87 | For each of png, jpg, jpeg and webp, cleaning prefix+payload yields the payload, even when the payload itself starts with a prefix. |
| GeminiService.PresentViews | services/geminiService.ts:89-100 | A view is listed exactly when its image is present (truthy), in the order front, left, right. |
| GeminiService.RequestParts | services/geminiService.ts:86-102 | The request for k present images has 2k+1 parts, and its last part is the prompt with the serialized profile. |
| GeminiService.RequestPartsShape | services/geminiService.ts:86-102 | For k present images the request has 2k+1 parts. Each image is a JPEG inline-data part holding the cleaned image, followed by its label. The prompt comes last. |
| GeminiService.PresentImageParts | services/geminiService.ts:89-100 | The image parts of the request are exactly those pushed by the front, left and right blocks in turn, each present only when its image is truthy. |
| GeminiService.BuildParts | services/geminiService.ts:86-102 | The parts built by successive pushes equal the request specification `RequestParts`. |
| GeminiService.PlanOrFallback | services/geminiService.ts:104-205 | A non-empty reply that parses is returned as the plan. The plan is the rules plan for the same profile whenever the call is rejected, the reply text is empty, or the text does not parse. |
| GeminiService.AnalyzeSkin | services/geminiService.ts:80-205 | It fails exactly when the API key is missing or empty, and then no request is sent. Otherwise the request sent is `RequestParts` for the images and the serialized profile, and the result is `PlanOrFallback` of the reply. |
| OnboardingPage.Apply | pages/OnboardingPage.tsx:38 | After the spread `{ ...prev, [key]: value }`, the written key reads back the written value. |
| OnboardingPage.ApplyChangesOnlyItsKey | pages/OnboardingPage.tsx:37-39 | After `updateProfile(k, v)`, key k reads back v and every other key reads as before. |
| OnboardingPage.ProfileExtensionality | types.ts:10-28 | Two profiles that agree on every key are equal, so the per-key view of ApplyChangesOnlyItsKey pins down the whole new profile. |
| OnboardingPage.LowerAscii | pages/OnboardingPage.tsx:126-127 | On ASCII text, `toLowerCase` keeps the length, lowers each letter A–Z and leaves every other character as it is. |
| OnboardingPage.SkinTypeValuesAreLowerCaseLabels | pages/OnboardingPage.tsx:122-127 | The stored skin types "dry", "oily", "combination" and "normal" are the lower-cased card labels. |
| OnboardingPage.Without | pages/OnboardingPage.tsx:235 | The filter keeps exactly the elements other than the goal. It never grows the list, and returns the list unchanged when the goal is absent. |
| OnboardingPage.ToggledGoals | pages/OnboardingPage.tsx:233-236 | After a tap the goal is selected exactly when it was not selected before and fewer than three goals were. Every other goal in the new list was already selected. |
| OnboardingPage.ToggleSelectedRemoves | pages/OnboardingPage.tsx:232-238 | Tapping a selected goal removes it and keeps every other goal. |
| OnboardingPage.ToggleUnselected | pages/OnboardingPage.tsx:236 | Tapping an unselected goal appends it while fewer than three goals are selected. With three selected, the list is unchanged. |
| OnboardingPage.ToggleKeepsSelectionValid | pages/OnboardingPage.tsx:232-238 | The selection never exceeds three goals and never holds a goal twice. |
| OnboardingPage.ToggleTwiceRestores | pages/OnboardingPage.tsx:232-238 | Adding and then removing a goal restores a list of fewer than three goals. |
| OnboardingPage.Onboarding.constructor | pages/OnboardingPage.tsx:30-35 | The page starts on step 1 with an empty profile, at the photo intro, with no photos. It satisfies the page invariant `Valid`. |
| OnboardingPage.Onboarding.UpdateProfile | pages/OnboardingPage.tsx:37-39 | The new profile is the old one with the given key set. Nothing else changes. |
| OnboardingPage.Onboarding.NextStep | pages/OnboardingPage.tsx:41-44 | Below step 5 the step increments and nothing is emitted. On step 5 completion is emitted with the profile and the step stays 5. Only `step` may change, and `Valid` (step in 1..5) is kept. |
| OnboardingPage.Onboarding.PrevStep | pages/OnboardingPage.tsx:46-49 | Above step 1 the step decrements. On step 1 exit is emitted and the step stays 1. Only `step` may change. |
| OnboardingPage.Onboarding.HandlePhotoScan | pages/OnboardingPage.tsx:51-64 | front goes to left, left to right, and right to review, each storing its photo. Only the third scan writes the three photos to `profile.skinImages`. A scan at intro or review changes nothing. The capture invariant is kept: intro and front hold no photos, left holds front only, right holds front and left, and review holds all three with `skinImages == tempImages`. |
| OnboardingPage.Onboarding.StartCapture | pages/OnboardingPage.tsx:66-68 | From the intro, capture moves to the front view. |
| OnboardingPage.Onboarding.ResetCapture | pages/OnboardingPage.tsx:70-74 | Returns to the intro with no photos and `skinImages` unset. All other profile keys are unchanged. |
| OnboardingPage.Onboarding.EnterName | pages/OnboardingPage.tsx:101 | Sets the name and keeps `Valid`. |
| OnboardingPage.Onboarding.EnterAge | pages/OnboardingPage.tsx:110 | Sets the age and keeps `Valid`. |
| OnboardingPage.Onboarding.SelectSkinType | pages/OnboardingPage.tsx:122-127 | Stores the lower-cased card label, so the stored skin type is always one of the four values. |
| OnboardingPage.Onboarding.ToggleGoal | pages/OnboardingPage.tsx:232-238 | Writes the toggled goal list, starting from `[]` when no goals are set. The cap of three and distinctness are kept. |
| OnboardingPage.Onboarding.SelectBudget | pages/OnboardingPage.tsx:249-252 | Sets the budget and keeps `Valid`. |
| OnboardingPage.Onboarding.Continue | pages/OnboardingPage.tsx:264-265 | The Next button shows exactly off step 3. It is disabled exactly on step 2 with no skin type. On step 3 the page is left forwards only by the skip link at the intro or the confirm button at review. |
| OnboardingPage.NextOnSkinStepNeedsChoice | pages/OnboardingPage.tsx:264-265 | On a consistent page, Next is enabled on step 2 exactly when one of the four skin types is stored. |
| OnboardingPage.CaptureFlow | pages/OnboardingPage.tsx:51-68 | From the intro, start plus three scans stores the three photos in order as `profile.skinImages`. A further scan changes nothing. |
| ProductsPage.EntryFor | pages/ProductsPage.tsx:30-34 | An entry carries the step's product fields unchanged, the step's category and the given period. |
| ProductsPage.Entries | pages/ProductsPage.tsx:28-38 | Every entry produced for a list of steps carries that list's period. |
| ProductsPage.Extract | pages/ProductsPage.tsx:28-38 | The `forEach` loop appends exactly `Entries(steps, period)` to the list it is given. |
| ProductsPage.Products | pages/ProductsPage.tsx:26-41 | The product list is `Shelf(plan)`: empty for a null plan, otherwise the morning entries (am) followed by the evening entries (pm). |
| ProductsPage.Shelf | pages/ProductsPage.tsx:25-40 | With no plan the shelf is empty. Otherwise it has one entry per morning or evening step that recommends a product. |
| ProductsPage.EntriesFollowSteps | pages/ProductsPage.tsx:29-36 | There is one entry per step with a product, in step order. Each copies name, brand, keyIngredients and whyThisProduct from the product and takes its category from the step. |
| ProductsPage.NoProductNoEntries | pages/ProductsPage.tsx:30 | Steps without a product give no entries. |
| ProductsPage.AmBeforePm | pages/ProductsPage.tsx:39-40 | No am entry follows a pm entry, and the shelf begins with the morning entries. |
| ProductsPage.ShelfEmptyIff | pages/ProductsPage.tsx:57-63 | The list is empty, so the empty state shows, exactly when there is no plan or no step recommends a product. |
| ProductsPage.RulesPlanShelf | pages/ProductsPage.tsx:26-41 | The rules plan gives three entries: the cleanser for the skin type and the sunscreen (am), then the Brightening Serum (pm). |
| Scanner.IsImageType | components/Scanner.tsx:34 | A file is accepted exactly when its first six characters are "image/". |
| Scanner.FitWithin | components/Scanner.tsx:40-47 | An image within 1536 by 1536 keeps its size. A larger one gets its longer side set to 1536, keeps its aspect ratio and never grows. No side ever exceeds 1536. |
| Scanner.ProcessFile | components/Scanner.tsx:33-57 | A file whose type does not start with "image/" emits nothing, and so does an image file that fails to read or decode. Otherwise exactly one image is emitted, drawn at the fitted size. |
| Scanner.MessagesDistinguishFailures | components/Scanner.tsx:83-92 | Each recognised camera exception gets its own message, distinct from the generic one. |
| Scanner.CameraErrorMessage | components/Scanner.tsx:83-92 | The if-chain gives the message in the table: NotAllowedError, NotFoundError and NotReadableError each have their own message, and anything else gets "Unable to access camera.". |
| Scanner.ScannerState.constructor | components/Scanner.tsx:22-25 | No camera view, no stream, no error and no flash. |
| Scanner.ScannerState.StartCamera | components/Scanner.tsx:59-96 | The error is cleared first. On success the stream is stored and the camera view opens. On failure the mapped message is set and the stream and view are unchanged. |
| Scanner.ScannerState.StopCamera | components/Scanner.tsx:98-104 | Afterwards there is no stream and no camera view. The open stream, if there was one, is stopped. |
| Scanner.ScannerState.CapturePhoto | components/Scanner.tsx:106-133 | Nothing happens unless the video's readyState is 4. With a 2D context the flash is cleared, the camera is stopped and exactly one image is emitted. Without one only the flash is cleared. |
| Scanner.StopTwice | components/Scanner.tsx:98-104 | Stopping twice stops the stream once: the second call changes nothing. |
| App.UsesAi | App.tsx:44 | The AI path is taken exactly when the profile has photos and at least one view is present, so the request will carry an image. |
| App.AiRequestHasImages | App.tsx:44-45 | When the AI path is taken, the request carries at least one image part, so it has at least three parts. |
| App.TabTarget | App.tsx:66-71 | today goes to dashboard, evolution to evolution and products to products. Any other tab id has no target. |
| App.LoadingMessage | App.tsx:80 | The loading text is "Analyzing your unique skin profile..." exactly when the profile has `skinImages`, otherwise "Designing your routine...". |
| App.ChoosePlan | App.tsx:40-61 | `analyzeSkin` is called with `skinImages` exactly when some photo is present. Its plan is used when the API key is set. Without photos, or when it throws for a missing key, the plan is the rules plan. |
| App.AppState.constructor | App.tsx:19-26 | The app starts on the landing view with no profile, no plan, not loading, on the "today" tab. |
| App.AppState.HandleStart | App.tsx:28-30 | Sets the view to onboarding. Nothing else changes. |
| App.AppState.GoHome | App.tsx:32-34 | Sets the view to landing. Nothing else changes. The onboarding page's back handler (App.tsx:95) does the same. |
| App.AppState.HandleTabChange | App.tsx:66-71 | The active tab is always set to the id. The view follows `TabTarget` and is unchanged for an unknown id. |
| App.AppState.HandleOnboardingComplete | App.tsx:36-64 | `analyzeSkin` is called once with `skinImages` exactly when some photo is present. Without photos, or when it throws for a missing key, the plan is the rules plan. In every branch the profile is stored, a plan is set, loading ends and the dashboard renders. |
| App.AppState.Render | App.tsx:73-145 | The loading screen shows exactly while loading, with `LoadingMessage`. The dashboard renders exactly when the view is dashboard and both a plan and a profile are set. |

## Left out

- Rendering, styling, the progress bar, the bilingual labels and `lang`: these are presentation only.
- The model name, system prompt and response schema of the Gemini request, and the `sendMessageToGemini` chat wrapper. These are foreign calls.
- `JSON.parse(response.text) as TodayPlan` is an unchecked cast: a reply that parses but is not a plan is passed on as-is. The model's `parse` yields either a well-formed `TodayPlan` or nothing.
- `JSON.stringify(profile)` is the parameter `stringify`; its output format is not modelled.
- FileReader, Image, canvas drawing, mirroring, JPEG encoding, getUserMedia and the video element: these browser APIs are inputs to the methods.
- Scanner.FitWithin: works over reals. It does not model IEEE rounding or the truncation to integers when the canvas size is assigned.
- The timers only delay or auto-clear: the 800 ms rules delay, the 100 ms play delay, the 5 s error auto-clear and the 800 ms flash. `isFlashing` is true during the flash wait and false again after it; only the final value is stated.
- The scanner's unmount cleanup (components/Scanner.tsx:27-31) captures the first render's empty stream, so it is not claimed to release the camera.
- Drag-and-drop hover state (components/Scanner.tsx:135-139) is presentation.
- OnboardingPage.LowerAscii: lowers only A–Z. JavaScript's full Unicode case mapping is not modelled; the page applies `toLowerCase` only to the four ASCII card labels.
- OnboardingPage.Onboarding.EnterAge: takes an integer. `parseInt` can yield NaN, which is not modelled.
- OnboardingPage.Onboarding.StartCapture: requires the intro state, the only place its button is rendered (pages/OnboardingPage.tsx:138-151).
- OnboardingPage.Onboarding.SelectSkinType: requires one of the four card labels, the only values the page passes (pages/OnboardingPage.tsx:122).
- React batching and closures: each handler is modelled as running to completion on the current state. React's functional `setState(prev => …)` updates and its closure reads agree in that setting.
- The App's products view is a placeholder (App.tsx:130-145). It does not mount `ProductsPage`, which is modelled on its own.
- `console.error` logging in the two catch blocks.
- The `Product`, `ChatMessage`, `JournalArticle` and `AnalysisData` types of types.ts are used only by views outside this model.
