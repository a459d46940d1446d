/**
 * The `Subject` and `Diet` constructors (src/AI4FoodNutritionFW_classes.py): a subject is a
 * run of weeks, each week a `Diet` of empty days whose sizes are drawn from the profile
 * configuration. Week "week_<w + 1>" is held at position `w` of `diets`, and day
 * "day_<k + 1>" at position `k` of a week's `days`.
 */
module Subjects {
  import opened Wrappers
  import opened Seqs
  import opened Keys
  import opened Dishes
  import opened Days
  import opened Random
  import opened Profile

  /** A week's `Diet`: its diet type, its number of days, and its days in order. */
  datatype Week = Week(dietType: ConfValue, daysWeek: int, days: seq<Day>)

  /** `v[0]` or `v[1]` fails: a list or a string with fewer than two items. */
  predicate Short(v: ConfValue) {
    (v.Numbers? && |v.items| < 2) || (v.Label? && |v.text| < 2)
  }

  /** `random.randint(v[0], v[1])` succeeds: two numbers, the first not above the second. */
  predicate IsRange(v: ConfValue) {
    v.Numbers? && |v.items| >= 2 && v.items[0] <= v.items[1]
  }

  /**
   * The exception `random.randint(v[0], v[1])` raises when `v` is no range: IndexError for
   * too few items, TypeError for characters, ValueError for an inverted range.
   */
  predicate RangeFault(v: ConfValue, e: Error) {
    if Short(v) then e.IndexError?
    else if v.Label? then e.TypeError?
    else e.ValueError?
  }

  /** `random.randint(v[0], v[1])` on a configuration value. */
  method RandIntOf(rng: Rng, v: ConfValue) returns (r: Result<int>)
    modifies rng
    ensures r.Ok? <==> IsRange(v)
    ensures r.Ok? ==> v.items[0] <= r.value <= v.items[1]
    ensures r.Err? ==> RangeFault(v, r.error)
  {
    if Short(v) {
      r := Err(IndexError("index out of range"));
    } else if v.Label? {
      r := Err(TypeError("can only concatenate str (not \"int\") to str"));
    } else if v.items[0] > v.items[1] {
      r := Err(ValueError("empty range for randrange()"));
    } else {
      var x := rng.RandInt(v.items[0], v.items[1]);
      r := Ok(x);
    }
  }

  /** `d` is a day `Meal(n)` builds for an `n` of `[lo, hi]`: meals "meal_1" to "meal_n", all empty. */
  predicate NewDay(d: Day, lo: int, hi: int) {
    (if lo > 0 then lo else 0) <= |d.meals| <= (if hi > 0 then hi else 0)
    && (forall i :: 0 <= i < |d.meals| ==> d.meals[i] == (i + 1, EmptyBucket))
    && d.preDishes == Some(EmptyBucket)
  }

  /**
   * `Diet(days_week, num_meals, diet_type)`: days "day_1" to "day_<days_week>", each with a
   * number of meals drawn from `num_meals`. A malformed `num_meals` only fails when there is
   * at least one day to build.
   */
  method NewDiet(rng: Rng, daysWeek: int, numMeals: ConfValue, dietType: ConfValue) returns (r: Result<Week>)
    modifies rng
    ensures r.Ok? <==> daysWeek < 1 || IsRange(numMeals)
    ensures r.Err? ==> RangeFault(numMeals, r.error)
    ensures r.Ok? ==> r.value.dietType == dietType && r.value.daysWeek == daysWeek
    ensures r.Ok? ==> |r.value.days| == if daysWeek > 0 then daysWeek else 0
    ensures r.Ok? && daysWeek > 0 ==> forall k :: 0 <= k < |r.value.days| ==>
      NewDay(r.value.days[k], numMeals.items[0], numMeals.items[1])
  {
    var days: seq<Day> := [];
    var day := 1;
    while day <= daysWeek
      invariant 1 <= day && |days| == day - 1
      invariant daysWeek >= 1 ==> day <= daysWeek + 1
      invariant daysWeek < 1 ==> day == 1
      invariant day > 1 ==>
        IsRange(numMeals) &&
        forall k :: 0 <= k < |days| ==> NewDay(days[k], numMeals.items[0], numMeals.items[1])
    {
      var n := RandIntOf(rng, numMeals);
      if n.Err? {
        return Err(n.error);
      }
      var d := NewMeal(n.value);
      days := days + [d];
      day := day + 1;
    }
    r := Ok(Week(dietType, daysWeek, days));
  }

  /** The secondary profile is not set: the configuration holds "none" or "None". */
  predicate Unset(v: ConfValue) {
    v == Label("none") || v == Label("None")
  }

  /** The diet types a missing secondary profile is drawn from, given the primary one. */
  function Alternatives(dietType: string): seq<string> {
    if dietType == "healthy" then ["unhealthy", "medium"]
    else if dietType == "unhealthy" then ["healthy", "medium"]
    else if dietType == "medium" then ["healthy", "unhealthy"]
    else []
  }

  /** A drawn secondary profile is one of the three diet types and never the primary one. */
  lemma AlternativesDiffer(dietType: string, x: string)
    requires x in Alternatives(dietType)
    ensures x != dietType
    ensures x == "healthy" || x == "unhealthy" || x == "medium"
  {
  }

  /** Only the three diet types have alternatives; any other primary type leaves "none" in place. */
  lemma AlternativesDefined(dietType: string)
    ensures Alternatives(dietType) != [] <==> dietType in {"healthy", "unhealthy", "medium"}
  {
  }

  /** `int(v[1])`: the second number of a list, or the digit in second place of a string. */
  function SecondField(v: ConfValue): (r: Result<int>)
    ensures r.Ok? ==>
      (v.Numbers? && |v.items| >= 2 && r.value == v.items[1]) ||
      (v.Label? && |v.text| >= 2 && IsDigit(v.text[1]) && r.value == v.text[1] as int - '0' as int)
    ensures r.Err? ==> (r.error.IndexError? <==> Short(v))
    ensures r.Err? && !Short(v) ==> r.error.ValueError? && v.Label? && !IsDigit(v.text[1])
  {
    if Short(v) then Err(IndexError("index out of range"))
    else if v.Numbers? then Ok(v.items[1])
    else if IsDigit(v.text[1]) then Ok(v.text[1] as int - '0' as int)
    else Err(ValueError("invalid literal for int() with base 10"))
  }

  /** `for week in irregular_weeks: diet_type_weeks[week] = secondary`. */
  method MarkIrregular(types: seq<ConfValue>, irregular: seq<int>, secondary: ConfValue) returns (r: seq<ConfValue>)
    requires forall i :: 0 <= i < |irregular| ==> 0 <= irregular[i] < |types|
    ensures |r| == |types|
    ensures forall w :: 0 <= w < |r| ==> r[w] == if w in irregular then secondary else types[w]
  {
    r := types;
    var i := 0;
    while i < |irregular|
      invariant 0 <= i <= |irregular| && |r| == |types|
      invariant forall w :: 0 <= w < |r| ==> r[w] == if w in irregular[..i] then secondary else types[w]
    {
      assert irregular[..i + 1] == irregular[..i] + [irregular[i]];
      r := r[irregular[i] := secondary];
      i := i + 1;
    }
    assert irregular[..i] == irregular;
  }

  /**
   * With a sample of distinct weeks and a secondary profile unlike every original type,
   * exactly as many weeks follow the secondary profile as were sampled.
   */
  lemma IrregularCount(types: seq<ConfValue>, irregular: seq<int>, secondary: ConfValue, r: seq<ConfValue>)
    requires Distinct(irregular)
    requires forall i :: 0 <= i < |irregular| ==> 0 <= irregular[i] < |types|
    requires |r| == |types| && forall w :: 0 <= w < |r| ==> r[w] == if w in irregular then secondary else types[w]
    requires forall w :: 0 <= w < |types| ==> types[w] != secondary
    ensures |set w | 0 <= w < |r| && r[w] == secondary| == |irregular|
  {
    assert (set w | 0 <= w < |r| && r[w] == secondary) == Elems(irregular);
    ElemsBound(irregular);
  }

  /**
   * The week `w` the constructor stores for diet type `dietType`: its day count is drawn
   * from `daysWeek` and is at most 7, and its days are new days drawn from `numMeals`.
   */
  predicate NewWeek(w: Week, dietType: ConfValue, daysWeek: ConfValue, numMeals: ConfValue) {
    w.dietType == dietType && IsRange(daysWeek)
    && daysWeek.items[0] <= w.daysWeek <= daysWeek.items[1] && w.daysWeek <= 7
    && |w.days| == (if w.daysWeek > 0 then w.daysWeek else 0)
    && (w.daysWeek > 0 ==>
          IsRange(numMeals) &&
          forall k :: 0 <= k < |w.days| ==> NewDay(w.days[k], numMeals.items[0], numMeals.items[1]))
  }

  /** `draws` are day counts drawn, in order, from the range `conf["days_week"]`. */
  predicate DaysDrawn(conf: map<string, ConfValue>, draws: seq<int>) {
    draws != [] ==>
      "days_week" in conf && IsRange(conf["days_week"]) &&
      forall j :: 0 <= j < |draws| ==> conf["days_week"].items[0] <= draws[j] <= conf["days_week"].items[1]
  }

  /**
   * Every week can be built with day counts `draws`: each at most 7, and `num_meals` present
   * and, for a week with days, a range to draw from.
   */
  predicate WeeksDefined(conf: map<string, ConfValue>, draws: seq<int>) {
    "days_week" in conf && IsRange(conf["days_week"]) && "num_meals" in conf &&
    forall j :: 0 <= j < |draws| ==> draws[j] <= 7 && (draws[j] > 0 ==> IsRange(conf["num_meals"]))
  }

  /**
   * The loop of the `Subject` constructor that builds one `Diet` per week, week `i` with
   * `draws[i]` days: the first week whose draw exceeds 7 raises ValueError, a missing key
   * KeyError, and a malformed range the error of `random.randint`.
   */
  method BuildWeeks(rng: Rng, conf: map<string, ConfValue>, types: seq<ConfValue>)
    returns (r: Result<seq<Week>>, ghost draws: seq<int>)
    modifies rng
    ensures |draws| <= |types| && DaysDrawn(conf, draws)
    ensures r.Ok? <==> types == [] || (|draws| == |types| && WeeksDefined(conf, draws))
    ensures r.Ok? ==> |r.value| == |types| == |draws| && forall i :: 0 <= i < |types| ==> r.value[i].daysWeek == draws[i]
    ensures r.Ok? && types != [] ==>
      "days_week" in conf && "num_meals" in conf &&
      forall i :: 0 <= i < |types| ==> NewWeek(r.value[i], types[i], conf["days_week"], conf["num_meals"])
    ensures forall j :: 0 <= j < |draws| - 1 ==> draws[j] <= 7
    ensures draws != [] && draws[|draws| - 1] > 7 ==>
      r == Err(ValueError("The number of days per week cannot be greater than 7"))
    ensures types != [] && "days_week" !in conf ==> r == Err(KeyError("days_week"))
    ensures types != [] && "days_week" in conf && !IsRange(conf["days_week"]) ==>
      r.Err? && RangeFault(conf["days_week"], r.error)
    ensures r.Err? ==> types != [] && !WeeksDefined(conf, draws)
    ensures r.Err? ==> r.error.KeyError? || r.error.IndexError? || r.error.TypeError? || r.error.ValueError?
  {
    var weeks: seq<Week> := [];
    draws := [];
    var i := 0;
    while i < |types|
      invariant 0 <= i <= |types| && |weeks| == i == |draws| && DaysDrawn(conf, draws)
      invariant i > 0 ==> WeeksDefined(conf, draws)
      invariant forall j :: 0 <= j < i ==> weeks[j].daysWeek == draws[j]
      invariant i > 0 ==>
        "days_week" in conf && "num_meals" in conf && IsRange(conf["days_week"]) &&
        forall j :: 0 <= j < i ==> NewWeek(weeks[j], types[j], conf["days_week"], conf["num_meals"])
    {
      if "days_week" !in conf {
        return Err(KeyError("days_week")), draws;
      }
      var daysWeek := RandIntOf(rng, conf["days_week"]);
      if daysWeek.Err? {
        return Err(daysWeek.error), draws;
      }
      draws := draws + [daysWeek.value];
      if daysWeek.value > 7 {
        return Err(ValueError("The number of days per week cannot be greater than 7")), draws;
      }
      if "num_meals" !in conf {
        return Err(KeyError("num_meals")), draws;
      }
      var week := NewDiet(rng, daysWeek.value, conf["num_meals"], types[i]);
      if week.Err? {
        return Err(week.error), draws;
      }
      weeks := weeks + [week.value];
      i := i + 1;
    }
    r := Ok(weeks);
  }

  /**
   * A variable subject's irregular weeks can be drawn from `count` weeks: the configuration
   * holds a secondary profile and a `regularity_weeks` whose second field is a count of at
   * most `count` weeks.
   */
  predicate Sampleable(conf: map<string, ConfValue>, count: int) {
    "secondary_profile" in conf && "regularity_weeks" in conf &&
    SecondField(conf["regularity_weeks"]).Ok? && 0 <= SecondField(conf["regularity_weeks"]).value <= count
  }

  /**
   * The configuration `after` is `before` with only its secondary profile assigned: drawn
   * from the alternatives of `dietType` when it was "none" or "None" and there are some,
   * and kept otherwise.
   */
  predicate SecondaryAssigned(before: map<string, ConfValue>, after: map<string, ConfValue>, dietType: string) {
    "secondary_profile" in before && "secondary_profile" in after &&
    after == before["secondary_profile" := after["secondary_profile"]] &&
    if Unset(before["secondary_profile"]) && Alternatives(dietType) != []
    then after["secondary_profile"].Label? && after["secondary_profile"].text in Alternatives(dietType)
    else after["secondary_profile"] == before["secondary_profile"]
  }

  /** A subject: identity, region, the shared profile configuration and one `Diet` per week. */
  class Subject {
    var id: string
    var region: string
    var profileConf: ProfileConf
    var weeks: int
    var diets: seq<Week>

    constructor (id: string, region: string, profileConf: ProfileConf, weeks: int, diets: seq<Week>)
      ensures this.id == id && this.region == region && this.profileConf == profileConf
      ensures this.weeks == weeks && this.diets == diets
    {
      this.id := id;
      this.region := region;
      this.profileConf := profileConf;
      this.weeks := weeks;
      this.diets := diets;
    }

    /**
     * Draws a secondary profile into the configuration when it holds "none" or "None" and
     * the primary type is one of the three diet types; a missing key raises KeyError.
     */
    static method AssignSecondary(rng: Rng, conf: ProfileConf, dietType: string) returns (r: Result<ConfValue>)
      modifies rng, conf
      ensures r.Ok? <==> "secondary_profile" in old(conf.entries)
      ensures r.Err? ==> r.error == KeyError("secondary_profile") && conf.entries == old(conf.entries)
      ensures r.Ok? ==> conf.entries == old(conf.entries)["secondary_profile" := r.value]
      ensures r.Ok? ==>
        if Unset(old(conf.entries)["secondary_profile"]) && Alternatives(dietType) != []
        then r.value.Label? && r.value.text in Alternatives(dietType)
        else r.value == old(conf.entries)["secondary_profile"]
    {
      if "secondary_profile" !in conf.entries {
        return Err(KeyError("secondary_profile"));
      }
      var current := conf.entries["secondary_profile"];
      var alternatives := Alternatives(dietType);
      if Unset(current) && alternatives != [] {
        var x := rng.Choice(alternatives);
        conf.entries := conf.entries["secondary_profile" := Label(x)];
        r := Ok(Label(x));
      } else {
        assert conf.entries == conf.entries["secondary_profile" := current];
        r := Ok(current);
      }
    }

    /**
     * The week types of the `Subject` constructor: every week follows `dietType`, except that
     * a variable subject has `int(regularity_weeks[1])` distinct weeks, drawn from
     * `range(0, count)`, switched to the secondary profile.
     */
    static method WeekTypes(rng: Rng, conf: ProfileConf, dietType: string, variable: bool, count: nat)
      returns (r: Result<seq<ConfValue>>, ghost irregular: seq<int>)
      modifies rng, conf
      ensures r.Ok? <==> !variable || Sampleable(old(conf.entries), count)
      ensures !variable || "secondary_profile" !in old(conf.entries) ==> conf.entries == old(conf.entries)
      ensures variable && "secondary_profile" in old(conf.entries) ==> SecondaryAssigned(old(conf.entries), conf.entries, dietType)
      ensures variable && "secondary_profile" !in old(conf.entries) ==> r == Err(KeyError("secondary_profile"))
      ensures r.Err? ==> r.error.KeyError? || r.error.IndexError? || r.error.TypeError? || r.error.ValueError?
      ensures r.Ok? ==> |r.value| == count
      ensures r.Ok? && !variable ==> irregular == [] && forall w :: 0 <= w < count ==> r.value[w] == Label(dietType)
      ensures r.Ok? && variable ==> "secondary_profile" in conf.entries && "regularity_weeks" in conf.entries
      ensures r.Ok? && variable ==>
        SecondField(conf.entries["regularity_weeks"]) == Ok(|irregular|) && Distinct(irregular) &&
        (forall i :: 0 <= i < |irregular| ==> 0 <= irregular[i] < count) &&
        forall w :: 0 <= w < count ==>
          r.value[w] == if w in irregular then conf.entries["secondary_profile"] else Label(dietType)
    {
      var weekTypes := seq(count, _ => Label(dietType));
      irregular := [];
      if variable {
        var secondary := AssignSecondary(rng, conf, dietType);
        if secondary.Err? {
          return Err(secondary.error), irregular;
        }
        if "regularity_weeks" !in conf.entries {
          return Err(KeyError("regularity_weeks")), irregular;
        }
        var k := SecondField(conf.entries["regularity_weeks"]);
        if k.Err? {
          return Err(k.error), irregular;
        }
        if k.value < 0 || k.value > count {
          return Err(ValueError("Sample larger than population or is negative")), irregular;
        }
        var sample := rng.Sample(0, count, k.value);
        weekTypes := MarkIrregular(weekTypes, sample, secondary.value);
        irregular := sample;
      }
      r := Ok(weekTypes);
    }

    /**
     * `Subject(ID, region, profile_conf, diet_type, variable_flag, weeks)`: the week types as
     * `WeekTypes` draws them, then one `Diet` per week as `BuildWeeks` builds them.
     */
    static method Create(rng: Rng, id: string, region: string, conf: ProfileConf, dietType: string,
                         variable: bool, weeks: int)
      returns (r: Result<Subject>, ghost types: seq<ConfValue>, ghost irregular: seq<int>, ghost draws: seq<int>)
      modifies rng, conf
      ensures r.Ok? <==>
        (!variable || Sampleable(old(conf.entries), if weeks > 0 then weeks else 0)) &&
        (weeks <= 0 || (|draws| == weeks && WeeksDefined(conf.entries, draws)))
      ensures DaysDrawn(conf.entries, draws) && forall j :: 0 <= j < |draws| - 1 ==> draws[j] <= 7
      ensures draws != [] && draws[|draws| - 1] > 7 ==>
        r == Err(ValueError("The number of days per week cannot be greater than 7"))
      ensures r.Ok? ==> |draws| == |r.value.diets| && forall w :: 0 <= w < |draws| ==> r.value.diets[w].daysWeek == draws[w]
      ensures r.Err? ==>
        (variable && !Sampleable(old(conf.entries), if weeks > 0 then weeks else 0)) ||
        (weeks > 0 && !WeeksDefined(conf.entries, draws))
      ensures !variable || "secondary_profile" !in old(conf.entries) ==> conf.entries == old(conf.entries)
      ensures variable && "secondary_profile" in old(conf.entries) ==> SecondaryAssigned(old(conf.entries), conf.entries, dietType)
      ensures variable && "secondary_profile" !in old(conf.entries) ==> r == Err(KeyError("secondary_profile"))
      ensures r.Err? ==> r.error.KeyError? || r.error.IndexError? || r.error.TypeError? || r.error.ValueError?
      ensures r.Ok? ==> fresh(r.value) && r.value.id == id && r.value.region == region
      ensures r.Ok? ==> r.value.profileConf == conf && r.value.weeks == weeks
      ensures r.Ok? ==> |types| == |r.value.diets| == (if weeks > 0 then weeks else 0)
      ensures r.Ok? && types != [] ==>
        "days_week" in conf.entries && "num_meals" in conf.entries &&
        forall w :: 0 <= w < |types| ==>
          NewWeek(r.value.diets[w], types[w], conf.entries["days_week"], conf.entries["num_meals"])
      ensures r.Ok? && !variable ==> irregular == [] && forall w :: 0 <= w < |types| ==> types[w] == Label(dietType)
      ensures r.Ok? && variable ==> "secondary_profile" in conf.entries && "regularity_weeks" in conf.entries
      ensures r.Ok? && variable ==>
        SecondField(conf.entries["regularity_weeks"]) == Ok(|irregular|) && Distinct(irregular) &&
        (forall i :: 0 <= i < |irregular| ==> 0 <= irregular[i] < |types|) &&
        forall w :: 0 <= w < |types| ==>
          types[w] == if w in irregular then conf.entries["secondary_profile"] else Label(dietType)
    {
      var count := if weeks > 0 then weeks else 0;
      draws := [];
      var drawn;
      drawn, irregular := WeekTypes(rng, conf, dietType, variable, count);
      if drawn.Err? {
        return Err(drawn.error), [], irregular, draws;
      }
      types := drawn.value;
      var built;
      built, draws := BuildWeeks(rng, conf.entries, drawn.value);
      if built.Err? {
        return Err(built.error), types, irregular, draws;
      }
      var s := new Subject(id, region, conf, weeks, built.value);
      r := Ok(s);
    }
  }
}
