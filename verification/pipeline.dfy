/**
 * The phases of `generate_subject_diet` (AI4FoodNutritionFW.py) fit together: the weeks the
 * `Subject` constructor builds can be walked by `balance_subject_diet`, and
 * `compute_subject_diet`, which only stages dishes, keeps them so.
 */
module Pipeline {
  import opened Days
  import opened Profile
  import opened Subjects
  import Taxonomy
  import Allocator
  import Compute
  import opened Balancer

  /** A week the constructor builds has one day per day of the week, each with meals "meal_1" to "meal_n". */
  lemma NewWeekReady(w: Week, dietType: ConfValue, daysWeek: ConfValue, numMeals: ConfValue)
    requires NewWeek(w, dietType, daysWeek, numMeals)
    ensures Ready(w)
  {
    forall d | 0 <= d < |w.days| ensures Contiguous(w.days[d].meals) {
      assert NewDay(w.days[d], numMeals.items[0], numMeals.items[1]);
    }
  }

  /** Computing a week stages dishes and leaves every meal where it was. */
  lemma ComputedReady(tax: seq<Taxonomy.Row>, conf: map<string, ConfValue>, before: Week, after: Week,
                      plan: Compute.WeekPlan)
    requires Compute.Shaped(before) && Compute.Computed(tax, conf, before, after, plan) && Ready(before)
    ensures Ready(after)
  {
    forall d | 0 <= d < |after.days| ensures after.days[d].meals == before.days[d].meals {
      assert Allocator.Grown(before.days[d], after.days[d], Compute.DayItems(plan.orders, plan.lsts, plan.high, d));
    }
  }
}
