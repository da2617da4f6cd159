/**
 * The 24-hour meal-plan generator. The random picks of the original are
 * supplied as indices into the fixed food lists, so the generator is a pure
 * function of the goal, the dietary preference and those indices.
 */
module Diet {
  import opened Text

  const WeightLossCalories := "1500-1800 kcal"
  const WeightLossFocus := "High Protein, Low Carb, Calorie Deficit"
  const MuscleGainCalories := "2500-2800 kcal"
  const MuscleGainFocus := "High Protein, Moderate Carb, Calorie Surplus"
  const BalancedCalories := "2000-2200 kcal"
  const BalancedFocus := "Balanced Macros, High Hydration"

  const VegetarianProteins: seq<string> :=
    ["Paneer Tikka", "Lentil Soup (Dal)", "Chickpea Salad", "Greek Yogurt", "Tofu Stir-fry", "Soy Chunks", "Quinoa"]
  const NonVegetarianProteins: seq<string> :=
    ["Grilled Chicken Breast", "Salmon/Fish", "Boiled Eggs", "Lean Turkey", "Chicken Curry (Light oil)", "Tuna Salad"]
  const Carbs: seq<string> := ["Brown Rice", "Oatmeal", "Sweet Potato", "Whole Wheat Roti", "Multigrain Bread"]
  const Fats: seq<string> := ["Almonds & Walnuts", "Olive Oil dressing", "Avocado", "Peanut Butter", "Chia Seeds"]
  const Fruits: seq<string> := ["Apple", "Banana", "Berries", "Orange", "Papaya"]
  const Veggies: seq<string> := ["Spinach", "Broccoli", "Mixed Veggies", "Cucumber Salad", "Steamed Beans"]

  const SecondSnack := "Protein Shake or Greek Yogurt with seeds."
  const Tip := "Drink 3-4 liters of water. Consistency is key!"

  /** The calorie band and macro focus of a goal. */
  datatype Targets = Targets(calories: string, focus: string)

  /** The seven random choices, in the order the plan makes them. */
  datatype Picks = Picks(
    breakfastCarb: nat, breakfastFat: nat,
    snackFruit: nat, snackFat: nat,
    lunchCarb: nat, lunchVeggie: nat,
    dinnerVeggie: nat)

  /** Every pick indexes its list, as a random choice from that list would. */
  predicate ValidPicks(p: Picks)
  {
    && p.breakfastCarb < |Carbs| && p.breakfastFat < |Fats|
    && p.snackFruit < |Fruits| && p.snackFat < |Fats|
    && p.lunchCarb < |Carbs| && p.lunchVeggie < |Veggies|
    && p.dinnerVeggie < |Veggies|
  }

  datatype Plan = Plan(
    goalTitle: string,
    preference: string,
    calories: string,
    focus: string,
    breakfast: string,
    snack1: string,
    lunch: string,
    snack2: string,
    dinner: string,
    tip: string)

  /** Weight loss and muscle gain have their own bands; every other goal, listed or not, gets the balanced one. */
  function TargetsFor(goal: string): (t: Targets)
    ensures t.calories == WeightLossCalories <==> goal == "weight_loss"
    ensures t.calories == MuscleGainCalories <==> goal == "muscle_gain"
    ensures t.calories == BalancedCalories <==> goal != "weight_loss" && goal != "muscle_gain"
    ensures t == Targets(WeightLossCalories, WeightLossFocus)
         || t == Targets(MuscleGainCalories, MuscleGainFocus)
         || t == Targets(BalancedCalories, BalancedFocus)
  {
    if goal == "weight_loss" then Targets(WeightLossCalories, WeightLossFocus)
    else if goal == "muscle_gain" then Targets(MuscleGainCalories, MuscleGainFocus)
    else Targets(BalancedCalories, BalancedFocus)
  }

  /** Exactly the preference "vegetarian" selects the vegetarian list; every other value the other one. */
  function ProteinsFor(preference: string): (ps: seq<string>)
    ensures ps == VegetarianProteins <==> preference == "vegetarian"
    ensures ps == NonVegetarianProteins <==> preference != "vegetarian"
    ensures |ps| >= 3
  {
    if preference == "vegetarian" then VegetarianProteins else NonVegetarianProteins
  }

  /** The goal as a heading: underscores become spaces, then each word is capitalised. */
  function GoalTitle(goal: string): string
  {
    Title(ReplaceChar(goal, '_', ' '))
  }

  function Breakfast(carb: string, fat: string, protein: string): string
  {
    "Bowl of " + carb + " with " + fat + " and a side of " + protein + "."
  }

  function FirstSnack(fruit: string, fat: string): string
  {
    "A fresh " + fruit + " and a handful of " + fat + "."
  }

  function Lunch(carb: string, protein: string, veggie: string): string
  {
    "1 cup " + carb + ", a large portion of " + protein + ", and " + veggie + "."
  }

  function Dinner(protein: string, veggie: string): string
  {
    "Light salad with " + protein + " and " + veggie + " (Avoid heavy carbs at night)."
  }

  function GenerateSmartDietPlan(goal: string, preference: string, picks: Picks): (plan: Plan)
    requires ValidPicks(picks)
    ensures plan.calories == TargetsFor(goal).calories && plan.focus == TargetsFor(goal).focus
    ensures plan.goalTitle == GoalTitle(goal) && plan.preference == Title(preference)
    ensures plan.snack2 == SecondSnack && plan.tip == Tip
  {
    var t := TargetsFor(goal);
    var proteins := ProteinsFor(preference);
    Plan(
      GoalTitle(goal),
      Title(preference),
      t.calories,
      t.focus,
      Breakfast(Carbs[picks.breakfastCarb], Fats[picks.breakfastFat], proteins[0]),
      FirstSnack(Fruits[picks.snackFruit], Fats[picks.snackFat]),
      Lunch(Carbs[picks.lunchCarb], proteins[1], Veggies[picks.lunchVeggie]),
      SecondSnack,
      Dinner(proteins[2], Veggies[picks.dinnerVeggie]),
      Tip)
  }

  lemma BreakfastNames(carb: string, fat: string, protein: string)
    ensures var text := Breakfast(carb, fat, protein);
      Contains(text, carb) && Contains(text, fat) && Contains(text, protein)
  {
    var text := Breakfast(carb, fat, protein);
    assert text == "Bowl of " + carb + (" with " + fat + " and a side of " + protein + ".");
    ContainsMiddle("Bowl of ", carb, " with " + fat + " and a side of " + protein + ".");
    assert text == "Bowl of " + carb + " with " + fat + (" and a side of " + protein + ".");
    ContainsMiddle("Bowl of " + carb + " with ", fat, " and a side of " + protein + ".");
    ContainsMiddle("Bowl of " + carb + " with " + fat + " and a side of ", protein, ".");
  }

  lemma FirstSnackNames(fruit: string, fat: string)
    ensures var text := FirstSnack(fruit, fat);
      Contains(text, fruit) && Contains(text, fat)
  {
    var text := FirstSnack(fruit, fat);
    assert text == "A fresh " + fruit + (" and a handful of " + fat + ".");
    ContainsMiddle("A fresh ", fruit, " and a handful of " + fat + ".");
    ContainsMiddle("A fresh " + fruit + " and a handful of ", fat, ".");
  }

  lemma LunchNames(carb: string, protein: string, veggie: string)
    ensures var text := Lunch(carb, protein, veggie);
      Contains(text, carb) && Contains(text, protein) && Contains(text, veggie)
  {
    var text := Lunch(carb, protein, veggie);
    assert text == "1 cup " + carb + (", a large portion of " + protein + ", and " + veggie + ".");
    ContainsMiddle("1 cup ", carb, ", a large portion of " + protein + ", and " + veggie + ".");
    assert text == "1 cup " + carb + ", a large portion of " + protein + (", and " + veggie + ".");
    ContainsMiddle("1 cup " + carb + ", a large portion of ", protein, ", and " + veggie + ".");
    ContainsMiddle("1 cup " + carb + ", a large portion of " + protein + ", and ", veggie, ".");
  }

  lemma DinnerNames(protein: string, veggie: string)
    ensures var text := Dinner(protein, veggie);
      Contains(text, protein) && Contains(text, veggie)
  {
    var text := Dinner(protein, veggie);
    assert text == "Light salad with " + protein + (" and " + veggie + " (Avoid heavy carbs at night).");
    ContainsMiddle("Light salad with ", protein, " and " + veggie + " (Avoid heavy carbs at night).");
    ContainsMiddle("Light salad with " + protein + " and ", veggie, " (Avoid heavy carbs at night).");
  }

  /**
   * Breakfast, lunch and dinner name the first, second and third protein of
   * the preferred list, and each meal names the items picked for it from
   * the fixed carb, fat, fruit and vegetable lists.
   */
  lemma MealsUseTheirItems(goal: string, preference: string, picks: Picks)
    requires ValidPicks(picks)
    ensures var plan := GenerateSmartDietPlan(goal, preference, picks);
      var proteins := ProteinsFor(preference);
      && Contains(plan.breakfast, proteins[0])
      && Contains(plan.breakfast, Carbs[picks.breakfastCarb])
      && Contains(plan.breakfast, Fats[picks.breakfastFat])
      && Contains(plan.snack1, Fruits[picks.snackFruit])
      && Contains(plan.snack1, Fats[picks.snackFat])
      && Contains(plan.lunch, proteins[1])
      && Contains(plan.lunch, Carbs[picks.lunchCarb])
      && Contains(plan.lunch, Veggies[picks.lunchVeggie])
      && Contains(plan.dinner, proteins[2])
      && Contains(plan.dinner, Veggies[picks.dinnerVeggie])
  {
    var proteins := ProteinsFor(preference);
    BreakfastNames(Carbs[picks.breakfastCarb], Fats[picks.breakfastFat], proteins[0]);
    FirstSnackNames(Fruits[picks.snackFruit], Fats[picks.snackFat]);
    LunchNames(Carbs[picks.lunchCarb], proteins[1], Veggies[picks.lunchVeggie]);
    DinnerNames(proteins[2], Veggies[picks.dinnerVeggie]);
  }

  /** The goal affects only the title, calories and focus; the meals depend on the preference and picks alone. */
  lemma MealsIgnoreGoal(goal1: string, goal2: string, preference: string, picks: Picks)
    requires ValidPicks(picks)
    ensures var p1 := GenerateSmartDietPlan(goal1, preference, picks);
      var p2 := GenerateSmartDietPlan(goal2, preference, picks);
      p1.(goalTitle := p2.goalTitle, calories := p2.calories, focus := p2.focus) == p2
  {
  }

  /**
   * Character by character, the goal title is the goal with underscores as
   * spaces, upper-casing a letter at the start of a word and lower-casing it
   * inside a word.
   */
  lemma GoalTitleAt(goal: string, i: nat)
    requires i < |goal|
    ensures |GoalTitle(goal)| == |goal|
    ensures GoalTitle(goal)[i] ==
      if goal[i] == '_' then ' '
      else if i > 0 && IsCased(goal[i - 1]) then ToLower(goal[i])
      else ToUpper(goal[i])
  {
    var spaced := ReplaceChar(goal, '_', ' ');
    TitleAt(spaced, i);
  }
}
