/** The domain records shared by the generator and the store. JavaScript
    numbers are modelled as exact `real`s. */
module Types {

  datatype Gender = Male | Female | Other

  datatype DietaryPreference = Vegetarian | NonVegetarian

  datatype Goal = WeightLoss | Maintain | WeightGain

  datatype CuisineType = Indian | Western | Mediterranean | Asian | Mixed

  datatype UserProfile = UserProfile(
    name: string,
    age: real,
    gender: Gender,
    weight: real,
    dietaryPreference: DietaryPreference,
    goal: Goal,
    cuisineType: CuisineType)

  datatype Meal = Meal(name: string, description: string, calories: real, items: seq<string>)

  datatype MealPlan = MealPlan(
    id: string,
    date: string,
    breakfast: Meal,
    lunch: Meal,
    dinner: Meal,
    totalCalories: real)

  /** The string value each enum member carries in the source. */
  function GenderName(g: Gender): string {
    match g
    case Male => "male"
    case Female => "female"
    case Other => "other"
  }

  function CuisineName(c: CuisineType): string {
    match c
    case Indian => "indian"
    case Western => "western"
    case Mediterranean => "mediterranean"
    case Asian => "asian"
    case Mixed => "mixed"
  }
}
