/**
 * The records the battle resolver consumes from the meal catalog.
 * The catalog itself (its SQL storage and the bodies of create_meal,
 * delete_meal, update_meal_stats, get_leaderboard) is not part of this model.
 */
module Kitchen {

  /** The three difficulty levels the catalog accepts when a meal is created. */
  datatype Difficulty = HIGH | MED | LOW

  /** A catalog meal as handed to the battle resolver. */
  datatype Meal = Meal(id: int, meal: string, cuisine: string, price: real, difficulty: Difficulty)

  /** The two outcomes update_meal_stats is called with. */
  datatype Outcome = Win | Loss

  /** One call of update_meal_stats(meal_id, outcome), as recorded in a trace. */
  datatype StatUpdate = StatUpdate(mealId: int, outcome: Outcome)
}
