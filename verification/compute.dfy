/**
 * `compute_subject_diet` (AI4FoodNutritionFW.py) as a whole: for each week a fresh pool
 * and fresh food-group frequencies, the first tier filling the pool, the pool spread over
 * the days, and the second tier drawn day by day. What a day receives is stated in terms
 * of the random outcomes of its week, gathered in a `WeekPlan`.
 */
module Compute {
  import opened Wrappers
  import opened Seqs
  import opened Dishes
  import opened Days
  import opened Random
  import opened Selection
  import opened Profile
  import opened Taxonomy
  import opened Staging
  import opened Subjects
  import opened Allocator

  /**
   * The random outcomes of one week: the drawn frequencies, the items each first-tier
   * group staged in the pool, the shuffled order and drawn days of each category of the
   * pool, and the items each second-tier group staged on each day.
   */
  datatype WeekPlan = WeekPlan(drawn: seq<FoodParam>, low: seq<seq<Item>>, orders: seq<seq<string>>,
                               lsts: seq<seq<int>>, high: seq<seq<seq<Item>>>)

  /** A week as the `Subject` constructor leaves it: one day per day of the week, each with its staging bucket. */
  predicate Shaped(w: Week) {
    |w.days| == (if w.daysWeek > 0 then w.daysWeek else 0) && Staged(w.days)
  }

  /** Every week the `Subject` constructor builds is shaped. */
  lemma NewWeekShaped(w: Week, dietType: ConfValue, daysWeek: ConfValue, numMeals: ConfValue)
    requires NewWeek(w, dietType, daysWeek, numMeals)
    ensures Shaped(w)
  {
    forall k | 0 <= k < |w.days| ensures w.days[k].preDishes.Some? {
      assert NewDay(w.days[k], numMeals.items[0], numMeals.items[1]);
    }
  }

  /** The pool dishes day `k` receives from the categories spread so far, category after category. */
  function PoolItems(orders: seq<seq<string>>, lsts: seq<seq<int>>, k: nat): seq<Item>
    requires Draws(orders, lsts)
  {
    if orders == [] then []
    else
      var n := |orders| - 1;
      PoolItems(orders[..n], lsts[..n], k) + Tagged(Chosen(orders[n], lsts[n], k + 1), AllTypes[n])
  }

  /** The pool dishes of day `k` filed under one category are those drawn for that day in that category. */
  lemma {:induction false} PoolNames(orders: seq<seq<string>>, lsts: seq<seq<int>>, k: nat, p: nat)
    requires Draws(orders, lsts) && p < |AllTypes|
    ensures NamesOf(PoolItems(orders, lsts, k), AllTypes[p]) ==
      if p < |orders| then Chosen(orders[p], lsts[p], k + 1) else []
  {
    if orders != [] {
      var e := |orders| - 1;
      var os, ls := orders[..e], lsts[..e];
      var names := Chosen(orders[e], lsts[e], k + 1);
      var before := PoolItems(os, ls, k);
      assert PoolItems(orders, lsts, k) == before + Tagged(names, AllTypes[e]);
      PoolNames(os, ls, k, p);
      TaggedNames(before, names, e, p);
      if p < e {
        assert os[p] == orders[p] && ls[p] == lsts[p];
      }
    }
  }

  /** Tagging a run of names with category `e` adds them to that category only. */
  lemma TaggedNames(before: seq<Item>, names: seq<string>, e: nat, p: nat)
    requires e < |AllTypes| && p < |AllTypes|
    ensures NamesOf(before + Tagged(names, AllTypes[e]), AllTypes[p]) ==
      NamesOf(before, AllTypes[p]) + if p == e then names else []
  {
    NamesAppend(before, Tagged(names, AllTypes[e]), AllTypes[p]);
    NamesTagged(names, AllTypes[e], AllTypes[p]);
    if p != e {
      AllTypesDistinct(p, e);
    }
  }

  /** Every pool dish is tagged with a known category. */
  lemma {:induction false} PoolAccepted(orders: seq<seq<string>>, lsts: seq<seq<int>>, k: nat)
    requires Draws(orders, lsts)
    ensures Accepted(PoolItems(orders, lsts, k))
  {
    if orders != [] {
      var n := |orders| - 1;
      var a := PoolItems(orders[..n], lsts[..n], k);
      var c := Tagged(Chosen(orders[n], lsts[n], k + 1), AllTypes[n]);
      PoolAccepted(orders[..n], lsts[..n], k);
      TaggedAccepted(Chosen(orders[n], lsts[n], k + 1), AllTypes[n]);
      AcceptedAppend(a, c);
    }
  }

  /** Two runs of accepted items are accepted together. */
  lemma AcceptedAppend(a: seq<Item>, c: seq<Item>)
    requires Accepted(a) && Accepted(c)
    ensures Accepted(a + c)
  {
    forall i | 0 <= i < |a + c| ensures ParseType((a + c)[i].dishType).Some? {
      if i >= |a| {
        assert (a + c)[i] == c[i - |a|];
      }
    }
  }

  /** A day on which all seven categories were spread has grown by exactly its pool dishes. */
  lemma SpreadItems(before: Day, after: Day, orders: seq<seq<string>>, lsts: seq<seq<int>>, k: nat)
    requires Draws(orders, lsts) && |orders| == |AllTypes| && DaySpread(before, after, orders, lsts, k)
    ensures Grown(before, after, PoolItems(orders, lsts, k))
  {
    var items := PoolItems(orders, lsts, k);
    var b := before.preDishes.value;
    PoolAccepted(orders, lsts, k);
    AddItemsDefined(b, items);
    var c := AddItems(b, items).value;
    forall t ensures c.Get(t) == after.preDishes.value.Get(t) {
      AllTypesComplete(t);
      var p :| 0 <= p < |AllTypes| && AllTypes[p] == t;
      AddItemsLists(b, items, t);
      PoolNames(orders, lsts, k, p);
    }
    BucketEq(c, after.preDishes.value);
  }

  /** Growing by `x` and then by `y` is growing by `x + y`. */
  lemma GrownTrans(a: Day, b: Day, c: Day, x: seq<Item>, y: seq<Item>)
    requires Grown(a, b, x) && Grown(b, c, y)
    ensures Grown(a, c, x + y)
  {
    AddItemsAppend(a.preDishes.value, x, y);
  }

  /** Everything day `k` receives in its week: its pool dishes, then what each second-tier group staged on it. */
  function DayItems(orders: seq<seq<string>>, lsts: seq<seq<int>>, high: seq<seq<seq<Item>>>, k: nat): seq<Item>
    requires Draws(orders, lsts) && forall g :: 0 <= g < |high| ==> k < |high[g]|
  {
    PoolItems(orders, lsts, k) + Column(high, k)
  }

  /** The pool the first tier fills, from an empty `Dish()`, with the runs of items `low` in order. */
  function Pool(low: seq<seq<Item>>): Result<Bucket> {
    AddItems(EmptyBucket, Flatten(low))
  }

  /** The entries the first tier leaves to the second, for the drawn frequencies `drawn`. */
  function Rest(tax: seq<Row>, drawn: seq<FoodParam>): seq<(string, FoodParam)>
    requires |drawn| <= |FoodTable|
  {
    HighEntries(tax, KeepDefined(Assigned(FoodTable, drawn)))
  }

  /**
   * Both tiers can stage the groups of the frequencies `drawn`: the first tier every entry
   * left once the sentinels are dropped, the second tier every entry the first one leaves.
   */
  predicate TiersDefined(tax: seq<Row>, drawn: seq<FoodParam>) {
    |drawn| == |FoodTable| &&
    var params := KeepDefined(Assigned(FoodTable, drawn));
    (forall i :: 0 <= i < |params| ==> LowDefined(tax, params[i])) &&
    forall g :: 0 <= g < |Rest(tax, drawn)| ==> HighReady(tax, Rest(tax, drawn)[g])
  }

  /** Frequencies `drawn` from `conf`, and each first-tier group staged in the pool as its frequency says. */
  predicate PoolPlanned(tax: seq<Row>, conf: map<string, ConfValue>, drawn: seq<FoodParam>, low: seq<seq<Item>>) {
    |drawn| == |FoodTable| && Drawn(conf, FoodTable, drawn) &&
    var params := KeepDefined(Assigned(FoodTable, drawn));
    |low| == |params| && (forall i :: 0 <= i < |params| ==> LowStaged(tax, params[i], low[i])) && Pool(low).Ok?
  }

  /**
   * Each category of `pool` shuffled into `orders[p]`, with days `lsts[p]` drawn by
   * `select_values_from_n_freq(days_week, n, 1)`, so that every dish of the pool reaches
   * exactly one day; and each entry of `rest` staged by the second tier on every day.
   */
  predicate DaysPlanned(tax: seq<Row>, w: Week, pool: Bucket, rest: seq<(string, FoodParam)>,
                        orders: seq<seq<string>>, lsts: seq<seq<int>>, high: seq<seq<seq<Item>>>)
    requires Shaped(w)
  {
    Draws(orders, lsts) && |orders| == |AllTypes| &&
    (forall p :: 0 <= p < |AllTypes| ==> multiset(orders[p]) == multiset(pool.Get(AllTypes[p]))) &&
    (w.daysWeek >= 1 ==> forall p :: 0 <= p < |AllTypes| ==>
      IsSelection(w.daysWeek, |pool.Get(AllTypes[p])|, 1, lsts[p]) &&
      Gathered(orders[p], lsts[p], w.daysWeek) == multiset(orders[p])) &&
    (w.daysWeek < 0 ==> pool.Count() == 0) &&
    |high| == |rest| && forall g :: 0 <= g < |rest| ==> GroupStaged(tax, rest[g], high[g], |w.days|)
  }

  /** The days `after` are `days`, each grown by its items. */
  predicate Filled(days: seq<Day>, after: seq<Day>, orders: seq<seq<string>>, lsts: seq<seq<int>>, high: seq<seq<seq<Item>>>)
    requires Draws(orders, lsts)
  {
    |after| == |days| && Staged(after) && (forall g :: 0 <= g < |high| ==> |high[g]| == |days|) &&
    forall k :: 0 <= k < |days| ==> Grown(days[k], after[k], DayItems(orders, lsts, high, k))
  }

  /** The outcomes `plan` are possible for week `w` under configuration `conf`. */
  predicate Planned(tax: seq<Row>, conf: map<string, ConfValue>, w: Week, plan: WeekPlan)
    requires Shaped(w)
  {
    PoolPlanned(tax, conf, plan.drawn, plan.low) &&
    DaysPlanned(tax, w, Pool(plan.low).value, Rest(tax, plan.drawn), plan.orders, plan.lsts, plan.high)
  }

  /** `after` is week `before` once computed with outcomes `plan`: same diet type and days, each day grown by its items. */
  predicate Computed(tax: seq<Row>, conf: map<string, ConfValue>, before: Week, after: Week, plan: WeekPlan)
    requires Shaped(before)
  {
    Planned(tax, conf, before, plan) && Shaped(after) &&
    after.dietType == before.dietType && after.daysWeek == before.daysWeek &&
    Filled(before.days, after.days, plan.orders, plan.lsts, plan.high)
  }

  /** Every day of the week received its items, first the pool's, then the second tier's. */
  lemma WeekGrown(days: seq<Day>, spread: seq<Day>, final: seq<Day>,
                  orders: seq<seq<string>>, lsts: seq<seq<int>>, high: seq<seq<seq<Item>>>)
    requires |orders| == |AllTypes| && Spread(days, spread, orders, lsts)
    requires |final| == |days| && Staged(final) && forall g :: 0 <= g < |high| ==> |high[g]| == |days|
    requires forall k :: 0 <= k < |days| ==> Grown(spread[k], final[k], Column(high, k))
    ensures Filled(days, final, orders, lsts, high)
  {
    forall k | 0 <= k < |days| ensures Grown(days[k], final[k], DayItems(orders, lsts, high, k)) {
      SpreadItems(days[k], spread[k], orders, lsts, k);
      GrownTrans(days[k], spread[k], final[k], PoolItems(orders, lsts, k), Column(high, k));
    }
  }

  /** With days drawn by `select_values_from_n_freq(d, n, 1)`, every shuffled dish reaches exactly one day. */
  lemma PoolPartition(d: int, orders: seq<seq<string>>, lsts: seq<seq<int>>, pool: Bucket)
    requires d >= 1 && Draws(orders, lsts) && |orders| == |AllTypes|
    requires forall p :: 0 <= p < |AllTypes| ==>
      multiset(orders[p]) == multiset(pool.Get(AllTypes[p])) && IsSelection(d, |pool.Get(AllTypes[p])|, 1, lsts[p])
    ensures forall p :: 0 <= p < |AllTypes| ==> Gathered(orders[p], lsts[p], d) == multiset(orders[p])
  {
    forall p | 0 <= p < |AllTypes| ensures Gathered(orders[p], lsts[p], d) == multiset(orders[p]) {
      SelectionBounds(d, |pool.Get(AllTypes[p])|, 1, lsts[p]);
      ChosenPartition(orders[p], lsts[p], d);
    }
  }

  /** The start of a week: `Dish()`, `FoodGroupParameters(profile_conf)` and the first tier. */
  method FillPool(rng: Rng, tax: seq<Row>, conf: map<string, ConfValue>)
    returns (r: Result<(Bucket, seq<(string, FoodParam)>)>, ghost drawn: seq<FoodParam>, ghost low: seq<seq<Item>>)
    modifies rng
    ensures !Accepts(conf, FoodTable) ==> r.Err? && (r.error.KeyError? || r.error.ValueError?)
    ensures Accepts(conf, FoodTable) ==> |drawn| == |FoodTable| && Drawn(conf, FoodTable, drawn)
    ensures Accepts(conf, FoodTable) && TiersDefined(tax, drawn) ==> r.Ok?
    ensures r.Ok? ==> PoolPlanned(tax, conf, drawn, low) && Pool(low) == Ok(r.value.0) && r.value.1 == Rest(tax, drawn)
  {
    low := [];
    var pool := new Dish();
    var params;
    params, drawn := FoodGroupParameters.Create(rng, conf);
    if params.Err? {
      return Err(params.error), drawn, low;
    }
    var rest;
    rest, low := LowTier(rng, tax, params.value.foodParams, pool);
    if rest.Err? {
      return Err(rest.error), drawn, low;
    }
    r := Ok((pool.Value(), rest.value));
  }

  /** The rest of a week: the pool spread over the days, then the second tier. A week of 0 days cannot be spread. */
  method FillDays(rng: Rng, tax: seq<Row>, w: Week, pool: Bucket, rest: seq<(string, FoodParam)>)
    returns (r: Result<seq<Day>>, ghost orders: seq<seq<string>>, ghost lsts: seq<seq<int>>, ghost high: seq<seq<seq<Item>>>)
    requires Shaped(w)
    modifies rng
    ensures w.daysWeek == 0 ==> r.Err?
    ensures w.daysWeek >= 1 && (forall g :: 0 <= g < |rest| ==> HighReady(tax, rest[g])) ==> r.Ok?
    ensures r.Ok? ==> DaysPlanned(tax, w, pool, rest, orders, lsts, high) && Filled(w.days, r.value, orders, lsts, high)
  {
    high := [];
    var spread;
    spread, orders, lsts := Distribute(rng, w.days, w.daysWeek, pool);
    if spread.Err? {
      return Err(spread.error), orders, lsts, high;
    }
    var final;
    final, high := HighTier(rng, tax, spread.value, rest);
    if final.Err? {
      return Err(final.error), orders, lsts, high;
    }
    WeekGrown(w.days, spread.value, final.value, orders, lsts, high);
    if w.daysWeek >= 1 {
      PoolPartition(w.daysWeek, orders, lsts, pool);
    }
    r := Ok(final.value);
  }

  /** The frequencies recorded in `plan` were drawn from `conf`, one per line of the table. */
  predicate PlanDrawn(conf: map<string, ConfValue>, plan: WeekPlan) {
    |plan.drawn| == |FoodTable| && Drawn(conf, FoodTable, plan.drawn)
  }

  /** When `conf` can be drawn from, every plan of `plans` records frequencies drawn from it. */
  predicate PlansDrawn(conf: map<string, ConfValue>, plans: seq<WeekPlan>) {
    Accepts(conf, FoodTable) ==> forall w :: 0 <= w < |plans| ==> PlanDrawn(conf, plans[w])
  }

  lemma PlansDrawnSnoc(conf: map<string, ConfValue>, plans: seq<WeekPlan>, plan: WeekPlan)
    requires PlansDrawn(conf, plans) && (Accepts(conf, FoodTable) ==> PlanDrawn(conf, plan))
    ensures PlansDrawn(conf, plans + [plan])
  {
    if Accepts(conf, FoodTable) {
      forall w | 0 <= w < |plans| + 1 ensures PlanDrawn(conf, (plans + [plan])[w]) {
        if w < |plans| {
          assert (plans + [plan])[w] == plans[w];
        }
      }
    }
  }

  /**
   * One iteration of the week loop of `compute_subject_diet`: a configuration the
   * frequencies cannot be drawn from raises KeyError or ValueError; a week of 0 days cannot
   * be spread.
   */
  method ComputeWeek(rng: Rng, tax: seq<Row>, w: Week, conf: map<string, ConfValue>)
    returns (r: Result<Week>, ghost plan: WeekPlan)
    requires Shaped(w)
    modifies rng
    ensures !Accepts(conf, FoodTable) ==> r.Err? && (r.error.KeyError? || r.error.ValueError?)
    ensures w.daysWeek == 0 ==> r.Err?
    ensures Accepts(conf, FoodTable) ==> PlanDrawn(conf, plan)
    ensures Accepts(conf, FoodTable) && w.daysWeek >= 1 && TiersDefined(tax, plan.drawn) ==> r.Ok?
    ensures r.Ok? ==> Computed(tax, conf, w, r.value, plan)
  {
    plan := WeekPlan([], [], [], [], []);
    var filled, drawn, low := FillPool(rng, tax, conf);
    plan := plan.(drawn := drawn, low := low);
    if filled.Err? {
      return Err(filled.error), plan;
    }
    var days, orders, lsts, high := FillDays(rng, tax, w, filled.value.0, filled.value.1);
    plan := WeekPlan(drawn, low, orders, lsts, high);
    if days.Err? {
      return Err(days.error), plan;
    }
    r := Ok(Week(w.dietType, w.daysWeek, days.value));
  }

  /** Week `after` is week `before` computed with outcomes `plan`. */
  function WeekComputed(tax: seq<Row>, conf: map<string, ConfValue>): (Week, Week, WeekPlan) -> bool {
    (before: Week, after: Week, plan: WeekPlan) => Shaped(before) && Computed(tax, conf, before, after, plan)
  }

  /** Each week of a computed run was computed from its week of `before` with its own outcomes. */
  lemma WeeksComputed(tax: seq<Row>, conf: map<string, ConfValue>, before: seq<Week>, after: seq<Week>, plans: seq<WeekPlan>)
    requires Pointwise(WeekComputed(tax, conf), before, after, plans)
    ensures forall i :: 0 <= i < |after| ==> Shaped(before[i]) && Computed(tax, conf, before[i], after[i], plans[i])
  {
    forall i | 0 <= i < |after| ensures Shaped(before[i]) && Computed(tax, conf, before[i], after[i], plans[i]) {
      PointwiseAt(WeekComputed(tax, conf), before, after, plans, i);
    }
  }

  /** `ComputeWeek` on the week after a computed run, extending the run. */
  method ComputeNext(rng: Rng, tax: seq<Row>, w: Week, conf: map<string, ConfValue>,
                     ghost before: seq<Week>, ghost done: seq<Week>, ghost plans: seq<WeekPlan>)
    returns (r: Result<Week>, ghost plan: WeekPlan)
    requires Pointwise(WeekComputed(tax, conf), before, done, plans) && |done| < |before| && before[|done|] == w
    requires Shaped(w)
    modifies rng
    ensures !Accepts(conf, FoodTable) ==> r.Err?
    ensures Accepts(conf, FoodTable) ==> PlanDrawn(conf, plan)
    ensures PlansDrawn(conf, plans) ==> PlansDrawn(conf, plans + [plan])
    ensures Accepts(conf, FoodTable) && w.daysWeek >= 1 && TiersDefined(tax, plan.drawn) ==> r.Ok?
    ensures r.Ok? ==> Pointwise(WeekComputed(tax, conf), before, done + [r.value], plans + [plan])
  {
    r, plan := ComputeWeek(rng, tax, w, conf);
    if PlansDrawn(conf, plans) {
      PlansDrawnSnoc(conf, plans, plan);
    }
    if r.Ok? {
      PointwiseSnoc(WeekComputed(tax, conf), before, done, plans, r.value, plan);
    }
  }

  /**
   * Every week can be computed under configuration `conf` with the draws recorded in `plans`:
   * the frequencies can be drawn, every week has a day, and both tiers can stage every group.
   */
  predicate Computable(tax: seq<Row>, conf: map<string, ConfValue>, weeks: seq<Week>, plans: seq<WeekPlan>) {
    Accepts(conf, FoodTable) && (forall w :: 0 <= w < |weeks| ==> weeks[w].daysWeek >= 1) &&
    forall w :: 0 <= w < |plans| ==> TiersDefined(tax, plans[w].drawn)
  }

  /** A week that cannot be computed with its own draws makes the whole run not computable. */
  lemma NotComputable(tax: seq<Row>, conf: map<string, ConfValue>, weeks: seq<Week>, plans: seq<WeekPlan>, plan: WeekPlan, w: nat)
    requires w < |weeks| && |plans| == w
    requires !(Accepts(conf, FoodTable) && weeks[w].daysWeek >= 1 && TiersDefined(tax, plan.drawn))
    ensures !Computable(tax, conf, weeks, plans + [plan])
  {
    assert (plans + [plan])[w] == plan;
  }

  /**
   * `compute_subject_diet(subject_diet, profile_conf)`: weeks "week_1" to
   * "week_<weeks>" computed in turn, each with its own outcomes. An exception stops the loop.
   */
  method ComputeSubjectDiet(rng: Rng, tax: seq<Row>, s: Subject, conf: ProfileConf)
    returns (r: Result<()>, ghost plans: seq<WeekPlan>)
    requires |s.diets| == (if s.weeks > 0 then s.weeks else 0)
    requires forall w :: 0 <= w < |s.diets| ==> Shaped(s.diets[w])
    modifies rng, s
    ensures s.id == old(s.id) && s.region == old(s.region) && s.profileConf == old(s.profileConf)
    ensures s.weeks == old(s.weeks) && |s.diets| == |old(s.diets)|
    ensures |plans| <= |old(s.diets)|
    ensures PlansDrawn(conf.entries, plans)
    ensures s.diets != [] && !Accepts(conf.entries, FoodTable) ==> r.Err?
    ensures Computable(tax, conf.entries, old(s.diets), plans) ==> r.Ok?
    ensures r.Ok? ==> Pointwise(WeekComputed(tax, conf.entries), old(s.diets), s.diets, plans)
  {
    var diets := s.diets;
    var done;
    r, done, plans := ComputeEach(rng, tax, diets, conf.entries);
    // the weeks computed before an exception stay updated in place
    s.diets := done + diets[|done|..];
    if r.Ok? {
      assert diets[|done|..] == [];
      assert s.diets == done;
    }
  }

  /** The loop of `ComputeSubjectDiet` over the weeks' values: `done` is the prefix computed so far. */
  method ComputeEach(rng: Rng, tax: seq<Row>, diets: seq<Week>, conf: map<string, ConfValue>)
    returns (r: Result<()>, done: seq<Week>, ghost plans: seq<WeekPlan>)
    requires forall w :: 0 <= w < |diets| ==> Shaped(diets[w])
    modifies rng
    ensures |done| <= |diets| && (r.Ok? ==> |done| == |diets|) && |plans| <= |diets|
    ensures PlansDrawn(conf, plans)
    ensures diets != [] && !Accepts(conf, FoodTable) ==> r.Err?
    ensures Computable(tax, conf, diets, plans) ==> r.Ok?
    ensures r.Ok? ==> Pointwise(WeekComputed(tax, conf), diets, done, plans)
  {
    plans, done := [], [];
    var w := 0;
    while w < |diets|
      invariant 0 <= w <= |diets| && |done| == w && |plans| == w
      invariant w > 0 ==> Accepts(conf, FoodTable)
      invariant PlansDrawn(conf, plans)
      invariant Pointwise(WeekComputed(tax, conf), diets, done, plans)
    {
      var week, plan := ComputeNext(rng, tax, diets[w], conf, diets, done, plans);
      if week.Err? {
        NotComputable(tax, conf, diets, plans, plan, w);
        return Err(week.error), done, plans + [plan];
      }
      done, plans := done + [week.value], plans + [plan];
      w := w + 1;
    }
    r := Ok(());
  }
}
