/** The static rule table that maps a calorie level to a nutrition plan. */
module NutritionRules {
  import opened Wrappers

  /** One meal slot of a plan and its ordered list of foods. */
  datatype Meal = Meal(slot: string, items: seq<string>)

  /** A nutrition plan: a guidance sentence and its meal slots, in the order the JSON response lists them. */
  datatype Plan = Plan(dailyGuidance: string, foods: seq<Meal>)

  /** The meal slots every plan fills, in order. */
  const MealSlots: seq<string> := ["Breakfast", "Lunch", "Dinner", "Snacks"]

  /** The slot names of a plan's meals, in order. */
  function Slots(foods: seq<Meal>): (slots: seq<string>)
    ensures |slots| == |foods|
    ensures forall i :: 0 <= i < |foods| ==> slots[i] == foods[i].slot
  {
    seq(|foods|, i requires 0 <= i < |foods| => foods[i].slot)
  }

  /** The `recommendations` dictionary literal, keyed by calorie level. */
  const Recommendations: map<string, Plan> := map[
    "Low" := Plan(
      "Controlled calorie intake with balanced nutrition.",
      [
        Meal("Breakfast", ["Oats", "Boiled egg", "Fruit"]),
        Meal("Lunch", ["Brown rice", "Dal", "Vegetables"]),
        Meal("Dinner", ["Chapati", "Vegetable curry"]),
        Meal("Snacks", ["Fruits", "Nuts (small quantity)"])
      ]),
    "Medium" := Plan(
      "Balanced diet for healthy growth.",
      [
        Meal("Breakfast", ["Idli", "Sambar", "Milk"]),
        Meal("Lunch", ["Rice", "Dal", "Curd", "Vegetables"]),
        Meal("Dinner", ["Chapati", "Paneer/Egg curry"]),
        Meal("Snacks", ["Fruits", "Milk"])
      ]),
    "High" := Plan(
      "High-energy diet to support growth and activity.",
      [
        Meal("Breakfast", ["Oats with milk", "Banana", "Peanut butter"]),
        Meal("Lunch", ["Rice", "Dal", "Ghee", "Vegetables"]),
        Meal("Dinner", ["Chapati", "Chicken/Paneer"]),
        Meal("Snacks", ["Milkshake", "Nuts"])
      ])
  ]

  /** A plan has guidance text and exactly the four meal slots in order, none of them empty. */
  predicate WellFormedPlan(p: Plan)
  {
    |p.dailyGuidance| > 0 &&
    Slots(p.foods) == MealSlots &&
    forall i :: 0 <= i < |p.foods| ==> |p.foods[i].items| > 0
  }

  /**
   * `recommendations.get(calorie_level)`: a plan for exactly the three known labels
   * (compared case-sensitively), None for every other label.
   */
  function GetNutritionRecommendation(calorieLevel: string): (r: Option<Plan>)
    ensures r.Some? <==> calorieLevel == "Low" || calorieLevel == "Medium" || calorieLevel == "High"
    ensures r.Some? ==> WellFormedPlan(r.value)
  {
    if calorieLevel in Recommendations then Some(Recommendations[calorieLevel]) else None
  }

  /** The Low plan, word for word and in order. */
  lemma LowPlanContent()
    ensures GetNutritionRecommendation("Low") == Some(Plan(
      "Controlled calorie intake with balanced nutrition.",
      [
        Meal("Breakfast", ["Oats", "Boiled egg", "Fruit"]),
        Meal("Lunch", ["Brown rice", "Dal", "Vegetables"]),
        Meal("Dinner", ["Chapati", "Vegetable curry"]),
        Meal("Snacks", ["Fruits", "Nuts (small quantity)"])
      ]))
  {
  }

  /** The Medium plan, word for word and in order. */
  lemma MediumPlanContent()
    ensures GetNutritionRecommendation("Medium") == Some(Plan(
      "Balanced diet for healthy growth.",
      [
        Meal("Breakfast", ["Idli", "Sambar", "Milk"]),
        Meal("Lunch", ["Rice", "Dal", "Curd", "Vegetables"]),
        Meal("Dinner", ["Chapati", "Paneer/Egg curry"]),
        Meal("Snacks", ["Fruits", "Milk"])
      ]))
  {
  }

  /** The High plan, word for word and in order. */
  lemma HighPlanContent()
    ensures GetNutritionRecommendation("High") == Some(Plan(
      "High-energy diet to support growth and activity.",
      [
        Meal("Breakfast", ["Oats with milk", "Banana", "Peanut butter"]),
        Meal("Lunch", ["Rice", "Dal", "Ghee", "Vegetables"]),
        Meal("Dinner", ["Chapati", "Chicken/Paneer"]),
        Meal("Snacks", ["Milkshake", "Nuts"])
      ]))
  {
  }

  /** The three plans can be told apart by their guidance alone. */
  lemma DistinctGuidance()
    ensures GetNutritionRecommendation("Low").value.dailyGuidance != GetNutritionRecommendation("Medium").value.dailyGuidance
    ensures GetNutritionRecommendation("Low").value.dailyGuidance != GetNutritionRecommendation("High").value.dailyGuidance
    ensures GetNutritionRecommendation("Medium").value.dailyGuidance != GetNutritionRecommendation("High").value.dailyGuidance
  {
  }

  /** The lookup does not fold case: lower- and upper-case spellings find no plan (and raise nothing). */
  lemma CaseVariantsHaveNoPlan()
    ensures GetNutritionRecommendation("low") == None
    ensures GetNutritionRecommendation("medium") == None
    ensures GetNutritionRecommendation("high") == None
    ensures GetNutritionRecommendation("LOW") == None
    ensures GetNutritionRecommendation("") == None
  {
  }
}
