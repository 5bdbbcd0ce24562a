/** The deterministic fallback generator: fixed meal templates chosen by the
    dietary preference, every meal shifted by a third of a goal adjustment.
    The id and the date, which the source takes from the clock, are inputs. */
module MockMealPlan {
  import opened Types

  /** The whole-day adjustment for a goal: -200, 0 or +200 kcal. */
  function CalorieAdjustment(goal: Goal): (adj: real)
    ensures goal == WeightLoss ==> adj == -200.0
    ensures goal == Maintain ==> adj == 0.0
    ensures goal == WeightGain ==> adj == 200.0
  {
    if goal == WeightLoss then -200.0
    else if goal == WeightGain then 200.0
    else 0.0
  }

  function VegetarianBreakfast(adj: real): Meal {
    Meal("Vegetarian Breakfast Bowl",
      "Nutritious breakfast bowl with yogurt, fruits, and granola",
      350.0 + adj / 3.0,
      ["Greek yogurt", "Mixed berries", "Granola", "Honey", "Chia seeds"])
  }

  function ProteinBreakfast(adj: real): Meal {
    Meal("Protein Breakfast Plate",
      "High protein breakfast with eggs, avocado, and whole grain toast",
      400.0 + adj / 3.0,
      ["Scrambled eggs", "Avocado slices", "Whole grain toast", "Turkey bacon"])
  }

  function VegetarianLunch(adj: real): Meal {
    Meal("Mediterranean Salad Bowl",
      "Fresh Mediterranean salad with falafel and tahini dressing",
      450.0 + adj / 3.0,
      ["Mixed greens", "Falafel", "Cherry tomatoes", "Cucumber", "Feta cheese", "Tahini dressing"])
  }

  function ChickenLunch(adj: real): Meal {
    Meal("Grilled Chicken Salad",
      "Lean protein salad with grilled chicken and vegetables",
      500.0 + adj / 3.0,
      ["Grilled chicken breast", "Mixed greens", "Bell peppers", "Cucumber", "Olive oil dressing"])
  }

  function VegetarianDinner(adj: real): Meal {
    Meal("Vegetable Stir-Fry with Tofu",
      "Asian-inspired vegetable stir-fry with tofu and brown rice",
      500.0 + adj / 3.0,
      ["Tofu", "Mixed vegetables", "Brown rice", "Soy sauce", "Ginger"])
  }

  function SalmonDinner(adj: real): Meal {
    Meal("Baked Salmon with Vegetables",
      "Omega-rich salmon with roasted vegetables",
      550.0 + adj / 3.0,
      ["Baked salmon", "Asparagus", "Sweet potato", "Olive oil", "Lemon"])
  }

  /** getMockMealPlan: the vegetarian templates exactly for a vegetarian
      profile, the others otherwise; the total is the sum of the meals. */
  function GetMockMealPlan(profile: UserProfile, id: string, date: string): (plan: MealPlan)
    ensures plan.id == id && plan.date == date
    ensures plan.totalCalories == plan.breakfast.calories + plan.lunch.calories + plan.dinner.calories
    ensures var adj := CalorieAdjustment(profile.goal);
      profile.dietaryPreference == Vegetarian <==>
        plan.breakfast == VegetarianBreakfast(adj)
        && plan.lunch == VegetarianLunch(adj)
        && plan.dinner == VegetarianDinner(adj)
    ensures var adj := CalorieAdjustment(profile.goal);
      profile.dietaryPreference != Vegetarian <==>
        plan.breakfast == ProteinBreakfast(adj)
        && plan.lunch == ChickenLunch(adj)
        && plan.dinner == SalmonDinner(adj)
  {
    var adj := CalorieAdjustment(profile.goal);
    var isVegetarian := profile.dietaryPreference == Vegetarian;
    var breakfast := if isVegetarian then VegetarianBreakfast(adj) else ProteinBreakfast(adj);
    var lunch := if isVegetarian then VegetarianLunch(adj) else ChickenLunch(adj);
    var dinner := if isVegetarian then VegetarianDinner(adj) else SalmonDinner(adj);
    MealPlan(id, date, breakfast, lunch, dinner, breakfast.calories + lunch.calories + dinner.calories)
  }

  /** Each meal is its template's base value plus a third of the adjustment,
      so the day totals 1300 (vegetarian) or 1450 kcal plus the adjustment. */
  lemma MockCalories(profile: UserProfile, id: string, date: string)
    ensures var plan := GetMockMealPlan(profile, id, date);
      var adj := CalorieAdjustment(profile.goal);
      && plan.breakfast.calories == (if profile.dietaryPreference == Vegetarian then 350.0 else 400.0) + adj / 3.0
      && plan.lunch.calories == (if profile.dietaryPreference == Vegetarian then 450.0 else 500.0) + adj / 3.0
      && plan.dinner.calories == (if profile.dietaryPreference == Vegetarian then 500.0 else 550.0) + adj / 3.0
      && plan.totalCalories == (if profile.dietaryPreference == Vegetarian then 1300.0 else 1450.0) + adj
  {
  }

  /** With the maintain goal every meal is exactly its template's base value. */
  lemma MockMaintainIsBase(profile: UserProfile, id: string, date: string)
    requires profile.goal == Maintain
    ensures var plan := GetMockMealPlan(profile, id, date);
      if profile.dietaryPreference == Vegetarian then
        plan.breakfast.calories == 350.0 && plan.lunch.calories == 450.0 && plan.dinner.calories == 500.0
      else
        plan.breakfast.calories == 400.0 && plan.lunch.calories == 500.0 && plan.dinner.calories == 550.0
  {
  }

  /** Apart from the id and the date, only the dietary preference and the goal
      matter: name, age, gender, weight and cuisine are ignored. */
  lemma MockIgnoresOtherFields(p: UserProfile, q: UserProfile, id: string, date: string)
    requires p.dietaryPreference == q.dietaryPreference && p.goal == q.goal
    ensures GetMockMealPlan(p, id, date) == GetMockMealPlan(q, id, date)
  {
  }

  /** Every meal of a mock plan lists at least one item. */
  lemma MockItemsNonEmpty(profile: UserProfile, id: string, date: string)
    ensures var plan := GetMockMealPlan(profile, id, date);
      plan.breakfast.items != [] && plan.lunch.items != [] && plan.dinner.items != []
  {
  }

  /** The meat and fish items of the non-vegetarian templates. */
  const MeatItems: set<string> := {"Turkey bacon", "Grilled chicken breast", "Baked salmon"}

  /** A vegetarian mock plan contains none of the meat and fish items, and a
      non-vegetarian one has one of them in each meal. */
  lemma MockVegetarianExcludesMeat(profile: UserProfile, id: string, date: string)
    ensures var plan := GetMockMealPlan(profile, id, date);
      profile.dietaryPreference == Vegetarian <==>
        forall item :: item in plan.breakfast.items + plan.lunch.items + plan.dinner.items ==> item !in MeatItems
    ensures var plan := GetMockMealPlan(profile, id, date);
      profile.dietaryPreference != Vegetarian ==>
        "Turkey bacon" in plan.breakfast.items && "Grilled chicken breast" in plan.lunch.items
        && "Baked salmon" in plan.dinner.items
  {
    var plan := GetMockMealPlan(profile, id, date);
    var all := plan.breakfast.items + plan.lunch.items + plan.dinner.items;
    if profile.dietaryPreference == Vegetarian {
      forall item | item in all ensures item !in MeatItems {
        assert item in plan.breakfast.items || item in plan.lunch.items || item in plan.dinner.items;
      }
    } else {
      assert all[3] == "Turkey bacon";
    }
  }
}
