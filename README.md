# Meal planner: verified model of the meal-plan pipeline

This project models, in Dafny, the data pipeline of a mobile meal-planning
application. It has three parts:

- **Key-value persistence adapter** (`AsyncStorageUtils`). The device store is a
  `DeviceStore` class whose `entries: map<Key, string>` field is updated in place.
  The four wrappers around it turn a rejected read into `null` and a rejected write
  into `false`. They also layer JSON on top; a stored empty string reads as `null`
  because the source tests truthiness.
- **Profile and plan store** (`Storage`). It saves the profile and then the
  onboarding flag, checks the flag, prepends meal plans newest first, lists plans,
  looks a plan up by id, and does the bulk reset of five fixed keys. The reads are
  functions of the store contents. The writes are methods that say what the new
  store is.
- **Meal-plan generator** (`MealPlannerService`, `MockMealPlan`). It computes the
  calorie target and the prompt's fragments, and extracts the JSON candidate from
  the model's free text. It then validates the three meals, back-fills the total,
  stamps the id and date, and folds every failure into one error. The mock
  generator is a pure function from profile to plan.

Modelling choices:

- Every native call that can fail takes its failure as an oracle answer, a `bool`
  parameter (`readFails`, `writeFails`, `removeFails`).
- `JSON.stringify` / `JSON.parse` are a `Codec` of two total functions. The parse
  function returns `None` on corrupt text and `Some(None)` on the text `null`,
  which reads as a missing value. The round trip is the per-value predicate
  `RoundTrips(c, v)`: the encoding of `v` is not empty and decodes to `v` again.
  It appears as a hypothesis about the value written, wherever a read-back
  property needs it. It is not required of every value: at types holding
  numbers no string encoding can be injective on all values.
- The HTTP endpoint is a function from the prompt to a `Response`.
- The clock's id and date are parameters.
- JavaScript numbers are exact `real`s.
- The five storage keys are the distinct constructors of `Key`. Any other key is
  `NamedKey(name)`.

Behaviour of the code worth knowing:

- **Extraction is greedy.** The candidate runs from the first `{` to the last `}`.
  It is not the first balanced span: two objects with text between them come out
  as one candidate (`ExtractSpansBothObjects`).
- **Every generation failure is one error.** That includes a parse failure:
  `generateMealPlan` catches the parse error and throws
  `Failed to generate meal plan. Please try again.`
- **An empty stored string reads as `null`,** not only an absent key; so does
  stored text that parses as JSON `null`.
- **`saveMealPlan` throws on a corrupt stored list** as well as on a failed write,
  because the parse failure is not caught. A *rejected* read of the list counts as
  an empty list, so the write that follows replaces the stored history with the one
  new plan. `Storage.SaveMealPlan` states this.

## Model

| member | source | states |
|---|---|---|
| `AsyncStorageUtils.DeviceStore.GetItem` | src/utils/asyncStorageUtils.ts:7 | a read that is not rejected gives the stored string when the key is present and `null` when it is absent; a rejected read is the rejection |
| `AsyncStorageUtils.DeviceStore.SetItem` | src/utils/asyncStorageUtils.ts:19 | a write that is not rejected maps the key to the value and changes nothing else; a rejected write changes nothing |
| `AsyncStorageUtils.DeviceStore.MultiRemove` | src/utils/storage.ts:70-76 | a removal that is not rejected deletes exactly the listed keys |
| `AsyncStorageUtils.GetValue` | src/utils/asyncStorageUtils.ts:3-12 | the stored string when the key is present and the read is not rejected, `null` when the key is absent or the read is rejected; never an error |
| `AsyncStorageUtils.SetValue` | src/utils/asyncStorageUtils.ts:14-25 | returns true exactly when the write succeeded; afterwards the key reads as the new value; every other key reads as before under every oracle answer |
| `AsyncStorageUtils.GetJson` | src/utils/asyncStorageUtils.ts:27-32 | `null` exactly when the raw value is `null`, `""` or text that parses as JSON `null`; a parse failure of other text is returned as an error, not swallowed; otherwise the value the stored text decodes to |
| `AsyncStorageUtils.SetJson` | src/utils/asyncStorageUtils.ts:34-39 | stores the encoding and reports success; when the value survives the round trip, a successful write reads back as the value itself |
| `AsyncStorageUtils.JsonRoundTrip` | src/utils/asyncStorageUtils.ts:27-39 | when a key holds the encoding of `v`, reading it as JSON gives `v`, given that the encoding of `v` is non-empty and decodes to `v` |
| `Storage.SaveUserProfile` | src/utils/storage.ts:11-24 | writes the profile and then the flag `"true"`, the second even when the first failed; throws exactly when either failed; after success onboarding reads as completed, and the profile reads back when it survives the round trip |
| `Storage.GetUserProfile` | src/utils/storage.ts:26-28 | `null` when no profile text is stored, it is empty or the read is rejected; otherwise, by what the stored text decodes to: the parse error on corrupt text, `null` for JSON `null`, else the decoded profile |
| `Storage.IsOnboardingCompleted` | src/utils/storage.ts:30-35 | true exactly when the flag is stored, reads without rejection and is the string `"true"` |
| `Storage.GetMealPlans` | src/utils/storage.ts:51-56 | `[]` when nothing (or `""`) is stored or the read is rejected; otherwise, by what the stored text decodes to: the parse error on corrupt text, `[]` for JSON `null`, else the stored list unchanged |
| `Storage.SaveMealPlan` | src/utils/storage.ts:37-49 | stores `[plan] + previous` where previous is what the list read gives (`[]` when absent); throws exactly when that read throws or the write fails; when the new list survives the round trip, afterwards it reads back as `[plan] + previous` and a lookup of the plan's id finds the plan |
| `Storage.FindById` | src/utils/storage.ts:61 | `null` exactly when no plan has the id; otherwise the plan at the first index in stored order whose id matches |
| `Storage.FindByIdHead` | src/utils/storage.ts:37-40 | the plan put at the head of a list is what a lookup of its id returns |
| `Storage.GetMealPlanById` | src/utils/storage.ts:58-66 | the first stored plan with the id, `null` when none matches, and also `null` when reading the list throws |
| `Storage.ClearAllData` | src/utils/storage.ts:68-81 | on success exactly the five reset keys are gone and every other key keeps its value; a rejected removal is rethrown |
| `Storage.ClearedStoreIsEmpty` | src/utils/storage.ts:26-56 | with the five keys gone, no profile is read, onboarding is not completed and the plan list is empty, under every oracle answer |
| `Storage.SaveTwiceNewestFirst` | src/utils/storage.ts:37-56 | the first save succeeds exactly when the stored list reads without error; the second then succeeds when `[A] + previous` survives the round trip; when both succeed and both lists survive the round trip, the list reads `[B, A]` followed by what was stored before |
| `MockMealPlan.CalorieAdjustment` | src/services/mockMealPlan.ts:11-16 | -200 for weight loss, 0 for maintain, +200 for weight gain |
| `MockMealPlan.GetMockMealPlan` | src/services/mockMealPlan.ts:7-114 | the vegetarian templates exactly when the preference is vegetarian and the other templates otherwise; the given id and date; total = breakfast + lunch + dinner calories |
| `MockMealPlan.MockCalories` | src/services/mockMealPlan.ts:26-104 | each meal is its template base plus adj/3, so the total is 1300 + adj (vegetarian) or 1450 + adj |
| `MockMealPlan.MockMaintainIsBase` | src/services/mockMealPlan.ts:11-94 | with goal maintain each meal's calories are exactly its template base |
| `MockMealPlan.MockIgnoresOtherFields` | src/services/mockMealPlan.ts:8 | two profiles with the same preference and goal give the same plan: name, age, gender, weight and cuisine are ignored |
| `MockMealPlan.MockItemsNonEmpty` | src/services/mockMealPlan.ts:28-100 | every meal has a non-empty item list |
| `MockMealPlan.MockVegetarianExcludesMeat` | src/services/mockMealPlan.ts:37-101 | the plan contains none of Turkey bacon, Grilled chicken breast, Baked salmon exactly when the preference is vegetarian; otherwise breakfast, lunch and dinner each hold one of them |
| `MealPlannerService.DietType` | src/services/mealPlannerService.ts:106-107 | `vegetarian` exactly for the vegetarian preference, `non-vegetarian` exactly for the other |
| `MealPlannerService.WeightGoal` | src/services/mealPlannerService.ts:108-113 | `lose weight`, `gain weight`, `maintain weight`, each exactly for its goal |
| `MealPlannerService.CuisinePreference` | src/services/mealPlannerService.ts:116-117 | empty exactly for `mixed`, otherwise `with <cuisine> cuisine influence` |
| `MealPlannerService.ConstructMealPlanPrompt` | src/services/mealPlannerService.ts:103-137 | the step-by-step target equals the reference target: 10w + 6.25·170 − 5a + 5 for male, 10w + 6.25·160 − 5a − 161 for every other gender, before the goal |
| `MealPlannerService.GoalShiftsTarget` | src/services/mealPlannerService.ts:131-135 | weight loss is the maintain target − 500 and weight gain the maintain target + 500 |
| `MealPlannerService.OtherUsesNonMaleFormula` | src/services/mealPlannerService.ts:122-128 | `other` gets the same target as `female` |
| `MealPlannerService.MaintainingMaleExample` | src/services/mealPlannerService.ts:122-135 | age 30, male, 70 kg, maintain gives 1617.5 kcal |
| `MealPlannerService.FirstIndexOf` | src/services/mealPlannerService.ts:173 | the first position holding the character, or none when it does not occur |
| `MealPlannerService.LastIndexOf` | src/services/mealPlannerService.ts:173 | the last position holding the character, or none when it does not occur |
| `MealPlannerService.ExtractJson` | src/services/mealPlannerService.ts:173-174 | when some `}` follows a `{`, the substring from the first `{` through the last `}`; otherwise the whole text |
| `MealPlannerService.ExtractStripsCommentary` | src/services/mealPlannerService.ts:172-174 | leading text without `{` and trailing text without `}` around one object are stripped |
| `MealPlannerService.ExtractSpansBothObjects` | src/services/mealPlannerService.ts:173 | the match is greedy: two objects with text between them give one candidate spanning both |
| `MealPlannerService.ParseApiResponse` | src/services/mealPlannerService.ts:168-197 | succeeds exactly when the candidate decodes and breakfast, lunch and dinner are present; every failure is the one parse error; the meals are the decoded ones; a missing or zero total becomes the sum of the meals' calories with missing ones as 0, and a non-zero total is kept even when it disagrees; a reply without a `{` before a `}` fails when the decoder reads objects only |
| `MealPlannerService.NoBraceSpanRejected` | src/services/mealPlannerService.ts:173-182 | when the decoder reads meals only from object text, a reply without a `{` before a `}` is not accepted |
| `MealPlannerService.ResponseText` | src/services/mealPlannerService.ts:80-81 | the reply's text when present, and `''` exactly when the text is missing or empty |
| `MealPlannerService.Stamp` | src/services/mealPlannerService.ts:87-91 | the plan carries the fresh id and date, whatever the reply held |
| `MealPlannerService.GenerateMealPlan` | src/services/mealPlannerService.ts:50-98 | every failure is the single generation error; success exactly when the endpoint answers and its text (or `''` when the text is missing) is accepted; the plan is the parsed reply with the given id and date; a delivered reply without text, or whose text has no `{` before a `}`, fails when the decoder reads objects only; with the mock switch, the mock plan |

## Left out

- The HTTP client is left out because it is network I/O. That covers the Axios
  instance, its interceptors, the API key and the request envelope
  (src/services/mealPlannerService.ts:1-45, 64-77). `GenerateMealPlan` takes the
  endpoint as a function from the prompt to a response.
- The prompt's text around its fragments is left out, and so is the JavaScript
  formatting of numbers inside it. `Prompt` holds the fragments and the calorie
  target as values.
- The internals of `JSON.stringify` and `JSON.parse` are library code. The model
  uses a `Codec` with the per-value round-trip predicate `RoundTrips` instead.
- For a reply, the decoder yields the fields the code reads, each present or
  absent. That JSON text without a `{` before a `}` cannot hold the three meals
  is the hypothesis `ObjectsOnly`, not a property of the decoder type.
- `MealPlannerService.GenerateMealPlan`: a meal whose `calories` field is absent
  is stored with calories 0. The source leaves the field undefined. The back-fill
  sum counts it as 0 in both.
- `USE_MOCK_DATA` is the constant `false` in the source. Here it is the parameter
  `useMock`, so both branches are modelled.
- `Date.now()` and `new Date().toISOString()` are nondeterministic. They are the
  `id` and `date` parameters.
- IEEE floating-point rounding is left out; numbers are exact reals.
- Concurrency is left out. That includes the lost update between two interleaved
  `saveMealPlan` calls. Every operation is one atomic step.
- `Storage.ClearAllData`: after a rejected bulk removal, the contract says nothing
  about which keys are gone. Only the rethrow is stated.
- The model assumes that a rejected single write leaves the store unchanged.
- `console.error` and `console.log` are left out, because logging is output only.
- src/constants/StorageKeys is not part of this model. The five keys are abstract
  and distinct.
- Screens, navigation, styles, components and the theme, toast and onboarding
  contexts are left out as UI. So are screen scaling (src/utils/scaling.ts),
  device probing (src/hooks/useIpAddress.ts) and the native splash-screen module.
- The onboarding form's age and weight checks live in a UI component, and
  profile editing saves without them. The store operations therefore have no
  bounds on age or weight.
