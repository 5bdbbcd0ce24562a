/** The meal-plan generator: the prompt's fragments and calorie target, the
    tolerant extraction and validation of the model's reply, and the folding
    of every failure into one error. The HTTP endpoint is a function from
    the prompt to a response, JSON.parse is a decoder passed in, and the id
    and date are inputs. */
module MealPlannerService {
  import opened Wrappers
  import opened Types
  import MockMealPlan

  const GenerationFailedMessage: string := "Failed to generate meal plan. Please try again."
  const ParseFailedMessage: string := "Failed to parse meal plan data"

  // ---------------------------------------------------------------------
  // Prompt construction

  /** The prompt's variable parts; the text around them is fixed. */
  datatype Prompt = Prompt(
    dietType: string,
    calorieTarget: real,
    weight: real,
    gender: string,
    weightGoal: string,
    cuisinePreference: string)

  function DietType(pref: DietaryPreference): (word: string)
    ensures word == "vegetarian" <==> pref == Vegetarian
    ensures word == "non-vegetarian" <==> pref == NonVegetarian
  {
    match pref
    case Vegetarian => "vegetarian"
    case NonVegetarian => "non-vegetarian"
  }

  function WeightGoal(goal: Goal): (phrase: string)
    ensures phrase == "lose weight" <==> goal == WeightLoss
    ensures phrase == "gain weight" <==> goal == WeightGain
    ensures phrase == "maintain weight" <==> goal == Maintain
  {
    match goal
    case WeightLoss => "lose weight"
    case WeightGain => "gain weight"
    case Maintain => "maintain weight"
  }

  function CuisinePreference(cuisine: CuisineType): (phrase: string)
    ensures phrase == "" <==> cuisine == Mixed
    ensures cuisine != Mixed ==> phrase == "with " + CuisineName(cuisine) + " cuisine influence"
  {
    if cuisine == Mixed then "" else "with " + CuisineName(cuisine) + " cuisine influence"
  }

  /** The reference calorie target: a basal estimate with a fixed reference
      height (170 cm for male, 160 cm for every other gender), shifted by
      500 kcal down for weight loss and up for weight gain. */
  function CalorieTargetOf(profile: UserProfile): real {
    var basal :=
      if profile.gender == Male then 10.0 * profile.weight + 6.25 * 170.0 - 5.0 * profile.age + 5.0
      else 10.0 * profile.weight + 6.25 * 160.0 - 5.0 * profile.age - 161.0;
    match profile.goal
    case WeightLoss => basal - 500.0
    case Maintain => basal
    case WeightGain => basal + 500.0
  }

  /** The prompt a profile gives, as a value. */
  function MealPlanPrompt(profile: UserProfile): Prompt {
    Prompt(DietType(profile.dietaryPreference), CalorieTargetOf(profile), profile.weight,
      GenderName(profile.gender), WeightGoal(profile.goal), CuisinePreference(profile.cuisineType))
  }

  /** constructMealPlanPrompt, with the calorie target built up step by step. */
  method ConstructMealPlanPrompt(profile: UserProfile) returns (prompt: Prompt)
    ensures prompt == MealPlanPrompt(profile)
    ensures profile.gender == Male && profile.goal == Maintain ==>
      prompt.calorieTarget == 10.0 * profile.weight + 6.25 * 170.0 - 5.0 * profile.age + 5.0
    ensures profile.gender != Male && profile.goal == Maintain ==>
      prompt.calorieTarget == 10.0 * profile.weight + 6.25 * 160.0 - 5.0 * profile.age - 161.0
  {
    var dietType := DietType(profile.dietaryPreference);
    var weightGoal := WeightGoal(profile.goal);
    var cuisinePreference := CuisinePreference(profile.cuisineType);
    var calorieTarget := 0.0;
    if profile.gender == Male {
      calorieTarget := 10.0 * profile.weight + 6.25 * 170.0 - 5.0 * profile.age + 5.0;
    } else {
      calorieTarget := 10.0 * profile.weight + 6.25 * 160.0 - 5.0 * profile.age - 161.0;
    }
    if profile.goal == WeightLoss {
      calorieTarget := calorieTarget - 500.0;
    } else if profile.goal == WeightGain {
      calorieTarget := calorieTarget + 500.0;
    }
    prompt := Prompt(dietType, calorieTarget, profile.weight, GenderName(profile.gender),
      weightGoal, cuisinePreference);
  }

  /** The goal moves the target by exactly 500 kcal either way, and nothing
      else of the target depends on it. */
  lemma GoalShiftsTarget(profile: UserProfile)
    ensures CalorieTargetOf(profile.(goal := WeightLoss)) == CalorieTargetOf(profile.(goal := Maintain)) - 500.0
    ensures CalorieTargetOf(profile.(goal := WeightGain)) == CalorieTargetOf(profile.(goal := Maintain)) + 500.0
  {
  }

  /** "other" takes the same formula as "female". */
  lemma OtherUsesNonMaleFormula(profile: UserProfile)
    ensures CalorieTargetOf(profile.(gender := Other)) == CalorieTargetOf(profile.(gender := Female))
  {
  }

  /** A 30-year-old male of 70 kg who wants to maintain: 1617.5 kcal. */
  lemma MaintainingMaleExample(profile: UserProfile)
    requires profile.age == 30.0 && profile.gender == Male && profile.weight == 70.0 && profile.goal == Maintain
    ensures CalorieTargetOf(profile) == 1617.5
  {
  }

  // ---------------------------------------------------------------------
  // Extraction of the JSON candidate: /\{[\s\S]*\}/

  function FirstIndexOf(s: string, c: char): (r: Option<nat>)
    ensures r.Some? ==> r.value < |s| && s[r.value] == c && forall k :: 0 <= k < r.value ==> s[k] != c
    ensures r.None? ==> forall k :: 0 <= k < |s| ==> s[k] != c
  {
    if s == [] then None
    else if s[0] == c then Some(0)
    else match FirstIndexOf(s[1..], c)
      case None => None
      case Some(k) => Some(k + 1)
  }

  function LastIndexOf(s: string, c: char): (r: Option<nat>)
    ensures r.Some? ==> r.value < |s| && s[r.value] == c && forall k :: r.value < k < |s| ==> s[k] != c
    ensures r.None? ==> forall k :: 0 <= k < |s| ==> s[k] != c
  {
    if s == [] then None
    else if s[|s| - 1] == c then Some(|s| - 1)
    else LastIndexOf(s[..|s| - 1], c)
  }

  /** Some '{' comes before some '}'. */
  ghost predicate HasBraceSpan(text: string) {
    exists i, j :: 0 <= i < j < |text| && text[i] == '{' && text[j] == '}'
  }

  /** text[i..j+1] runs from the first '{' to the last '}' of the text. */
  ghost predicate IsGreedySpan(text: string, i: int, j: int) {
    && 0 <= i < j < |text|
    && text[i] == '{' && text[j] == '}'
    && (forall k :: 0 <= k < i ==> text[k] != '{')
    && (forall k :: j < k < |text| ==> text[k] != '}')
  }

  /** The regular-expression match: from the first '{' through the last '}'
      when a '}' follows it (greedy, not balanced), else the whole text. */
  function ExtractJson(text: string): (candidate: string)
    ensures !HasBraceSpan(text) ==> candidate == text
    ensures HasBraceSpan(text) ==> exists i, j :: IsGreedySpan(text, i, j) && candidate == text[i..j + 1]
  {
    match FirstIndexOf(text, '{')
    case None => text
    case Some(open) =>
      match LastIndexOf(text, '}')
      case None => text
      case Some(close) =>
        if open < close then
          assert IsGreedySpan(text, open, close);
          text[open..close + 1]
        else text
  }

  /** There is only one greedy span. */
  lemma GreedySpanUnique(text: string, i: int, j: int, i': int, j': int)
    requires IsGreedySpan(text, i, j) && IsGreedySpan(text, i', j')
    ensures i == i' && j == j'
  {
  }

  /** Commentary around one object is stripped: text before it without '{'
      and text after it without '}' do not reach the candidate. */
  lemma {:induction false} ExtractStripsCommentary(prefix: string, obj: string, suffix: string)
    requires '{' !in prefix && '}' !in suffix
    requires |obj| >= 2 && obj[0] == '{' && obj[|obj| - 1] == '}'
    ensures ExtractJson(prefix + obj + suffix) == obj
  {
    var text := prefix + obj + suffix;
    var i, j := |prefix|, |prefix| + |obj| - 1;
    assert text[i] == obj[0] && text[j] == obj[|obj| - 1];
    forall k | 0 <= k < i ensures text[k] != '{' {
      assert text[k] == prefix[k];
    }
    forall k | j < k < |text| ensures text[k] != '}' {
      assert text[k] == suffix[k - j - 1];
    }
    assert IsGreedySpan(text, i, j);
    var i', j' :| IsGreedySpan(text, i', j') && ExtractJson(text) == text[i'..j' + 1];
    GreedySpanUnique(text, i, j, i', j');
    assert text[i..j + 1] == obj;
  }

  /** The match is greedy: two objects with text between them come out as one
      candidate that spans both, not as the first object alone. */
  lemma ExtractSpansBothObjects(first: string, between: string, second: string)
    requires |first| >= 2 && first[0] == '{' && first[|first| - 1] == '}'
    requires |second| >= 2 && second[0] == '{' && second[|second| - 1] == '}'
    ensures ExtractJson(first + between + second) == first + between + second
  {
    var obj := first + between + second;
    assert obj[0] == first[0];
    assert obj[|obj| - 1] == second[|second| - 1];
    ExtractStripsCommentary("", obj, "");
    assert "" + obj + "" == obj;
  }

  // ---------------------------------------------------------------------
  // Parsing and validation

  /** A meal as JSON.parse gives it; `calories` may be absent (or falsy). */
  datatype RawMeal = RawMeal(name: string, description: string, calories: Option<real>, items: seq<string>)

  /** The parsed reply as the code reads it: each field present or not. */
  datatype RawPlan = RawPlan(
    id: Option<string>,
    date: Option<string>,
    breakfast: Option<RawMeal>,
    lunch: Option<RawMeal>,
    dinner: Option<RawMeal>,
    totalCalories: Option<real>)

  /** The validated reply: the three meals and a total. */
  datatype ParsedPlan = ParsedPlan(breakfast: RawMeal, lunch: RawMeal, dinner: RawMeal, totalCalories: real)

  /** `meal.calories || 0` */
  function CaloriesOrZero(meal: RawMeal): real {
    meal.calories.GetOr(0.0)
  }

  /** Falsy totals: absent or zero. */
  predicate TotalMissing(total: Option<real>) {
    total.None? || total.value == 0.0
  }

  ghost predicate HasAllMeals(data: RawPlan) {
    data.breakfast.Some? && data.lunch.Some? && data.dinner.Some?
  }

  /** The reply's candidate decodes and has all three meals. */
  ghost predicate Accepted(text: string, decode: string -> Option<RawPlan>) {
    decode(ExtractJson(text)).Some? && HasAllMeals(decode(ExtractJson(text)).value)
  }

  /** What JSON.parse guarantees of a decoder: text it reads as an object with
      the three meals holds a '{' before a '}'. A number, a string, `null` or
      an array of scalars has no meals to read. */
  ghost predicate ObjectsOnly(decode: string -> Option<RawPlan>) {
    forall t :: decode(t).Some? && HasAllMeals(decode(t).value) ==> HasBraceSpan(t)
  }

  /** A reply without a '{' before a '}' is never accepted: the candidate is
      then the whole text, and no object can be read from it. */
  lemma NoBraceSpanRejected(text: string, decode: string -> Option<RawPlan>)
    requires ObjectsOnly(decode)
    requires !HasBraceSpan(text)
    ensures !Accepted(text, decode)
  {
    assert ExtractJson(text) == text;
  }

  /** The reference back-fill rule: a missing or zero total is the sum of the
      meals' calories, counting missing ones as 0; any other total is kept. */
  function BackfilledTotal(data: RawPlan): real
    requires HasAllMeals(data)
  {
    if TotalMissing(data.totalCalories) then
      CaloriesOrZero(data.breakfast.value) + CaloriesOrZero(data.lunch.value) + CaloriesOrZero(data.dinner.value)
    else data.totalCalories.value
  }

  /** parseAPIResponse: extract, decode, validate, back-fill the total in
      place; every failure becomes the one parse error. */
  method ParseApiResponse(responseText: string, decode: string -> Option<RawPlan>) returns (r: Result<ParsedPlan, string>)
    ensures r.Success? <==> Accepted(responseText, decode)
    ensures r.Failure? ==> r.error == ParseFailedMessage
    ensures r.Success? ==>
      var data := decode(ExtractJson(responseText)).value;
      && r.value.breakfast == data.breakfast.value
      && r.value.lunch == data.lunch.value
      && r.value.dinner == data.dinner.value
      && r.value.totalCalories == BackfilledTotal(data)
    ensures r.Success? && TotalMissing(decode(ExtractJson(responseText)).value.totalCalories) ==>
      r.value.totalCalories ==
        CaloriesOrZero(r.value.breakfast) + CaloriesOrZero(r.value.lunch) + CaloriesOrZero(r.value.dinner)
    ensures r.Success? && !TotalMissing(decode(ExtractJson(responseText)).value.totalCalories) ==>
      r.value.totalCalories == decode(ExtractJson(responseText)).value.totalCalories.value
    ensures ObjectsOnly(decode) && !HasBraceSpan(responseText) ==> r.Failure?
  {
    var jsonString := ExtractJson(responseText);
    var parsed := decode(jsonString);
    if parsed.None? {
      return Failure(ParseFailedMessage);
    }
    var parsedData := parsed.value;
    if parsedData.breakfast.None? || parsedData.lunch.None? || parsedData.dinner.None? {
      return Failure(ParseFailedMessage);
    }
    if TotalMissing(parsedData.totalCalories) {
      parsedData := parsedData.(totalCalories := Some(
        CaloriesOrZero(parsedData.breakfast.value)
        + CaloriesOrZero(parsedData.lunch.value)
        + CaloriesOrZero(parsedData.dinner.value)));
    }
    r := Success(ParsedPlan(parsedData.breakfast.value, parsedData.lunch.value,
      parsedData.dinner.value, parsedData.totalCalories.value));
    if ObjectsOnly(decode) && !HasBraceSpan(responseText) {
      NoBraceSpanRejected(responseText, decode);
    }
  }

  // ---------------------------------------------------------------------
  // Generation

  /** What the endpoint answers: a transport or endpoint error, or a body
      whose candidates[0].content.parts[0].text may be missing. */
  datatype Response = TransportError | Delivered(text: Option<string>)

  /** `... ?.text || ''`: the reply's text, the empty string when missing. */
  function ResponseText(text: Option<string>): (r: string)
    ensures text.Some? ==> r == text.value
    ensures r == "" <==> text.None? || text.value == ""
  {
    text.GetOr("")
  }

  /** A meal as it is stored; an absent calories field is carried as 0. */
  function ToMeal(meal: RawMeal): Meal {
    Meal(meal.name, meal.description, CaloriesOrZero(meal), meal.items)
  }

  /** Adds the generated id and date, whatever id or date the reply held. */
  function Stamp(parsed: ParsedPlan, id: string, date: string): (plan: MealPlan)
    ensures plan.id == id && plan.date == date
  {
    MealPlan(id, date, ToMeal(parsed.breakfast), ToMeal(parsed.lunch), ToMeal(parsed.dinner),
      parsed.totalCalories)
  }

  /** generateMealPlan: the mock when `useMock` holds; otherwise the prompt is
      sent, the reply parsed and stamped. Any failure on the way, transport or
      parse, surfaces as the single generation error. */
  method GenerateMealPlan(profile: UserProfile, useMock: bool, endpoint: Prompt -> Response,
                          decode: string -> Option<RawPlan>, id: string, date: string)
    returns (r: Result<MealPlan, string>)
    ensures r.Failure? ==> r.error == GenerationFailedMessage
    ensures r.Success? ==> r.value.id == id && r.value.date == date
    ensures useMock ==> r == Success(MockMealPlan.GetMockMealPlan(profile, id, date))
    ensures !useMock ==>
      var response := endpoint(MealPlanPrompt(profile));
      (r.Success? <==> response.Delivered? && Accepted(ResponseText(response.text), decode))
    ensures !useMock && r.Success? ==>
      var data := decode(ExtractJson(ResponseText(endpoint(MealPlanPrompt(profile)).text))).value;
      r.value == MealPlan(id, date, ToMeal(data.breakfast.value), ToMeal(data.lunch.value),
        ToMeal(data.dinner.value), BackfilledTotal(data))
    ensures !useMock && ObjectsOnly(decode) && endpoint(MealPlanPrompt(profile)) == Delivered(None) ==>
      r.Failure?
    ensures (!useMock && ObjectsOnly(decode) && endpoint(MealPlanPrompt(profile)).Delivered?
        && !HasBraceSpan(ResponseText(endpoint(MealPlanPrompt(profile)).text))) ==>
      r.Failure?
  {
    if useMock {
      return Success(MockMealPlan.GetMockMealPlan(profile, id, date));
    }
    var prompt := ConstructMealPlanPrompt(profile);
    var response := endpoint(prompt);
    if response.TransportError? {
      return Failure(GenerationFailedMessage);
    }
    var responseText := ResponseText(response.text);
    var mealPlanData := ParseApiResponse(responseText, decode);
    assert response.text.None? ==> !HasBraceSpan(responseText);
    if mealPlanData.Failure? {
      return Failure(GenerationFailedMessage);
    }
    r := Success(Stamp(mealPlanData.value, id, date));
  }
}
