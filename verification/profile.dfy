/**
 * The profile configuration and the weekly food-group frequencies: `unzip_values` and
 * `select_random_number` (src/utils.py) and `FoodGroupParameters`
 * (src/AI4FoodNutritionFW_classes.py).
 */
module Profile {
  import opened Wrappers
  import opened Keys
  import opened Dicts
  import opened Random

  /** A parsed profile entry: a list of numbers (normally `[min, max]`) or a label such as a diet type. */
  datatype ConfValue = Numbers(items: seq<int>) | Label(text: string)

  /** The profile configuration: a dictionary the `Subject` constructor writes back into. */
  class ProfileConf {
    var entries: map<string, ConfValue>

    constructor (entries: map<string, ConfValue>)
      ensures this.entries == entries
    {
      this.entries := entries;
    }
  }

  /** The value of a decimal digit. */
  function DigitValue(c: char): int {
    c as int - '0' as int
  }

  /** An integer numeral with an optional sign: the strings `float()` accepts that this model covers. */
  predicate IsNumeral(s: string) {
    (|s| >= 1 && AllDigits(s)) || (|s| >= 2 && (s[0] == '-' || s[0] == '+') && AllDigits(s[1..]))
  }

  function NumeralValue(s: string): int
    requires IsNumeral(s)
  {
    if AllDigits(s) then ParseDigits(s)
    else if s[0] == '-' then -(ParseDigits(s[1..]) as int)
    else ParseDigits(s[1..])
  }

  /**
   * `unzip_values`: "-" is (-1, -1), a number `v` is (v, v), and otherwise the first
   * and third characters must be digits around a "-". Indexing a too short string raises
   * IndexError, any other string TypeError.
   */
  function UnzipValues(value: string): (r: Result<(int, int)>)
    ensures r.Ok? ==> value == "-" || IsNumeral(value) || (|value| >= 3 && value[1] == '-')
    ensures r.Ok? && value != "-" && !IsNumeral(value) ==>
      0 <= r.value.0 <= 9 && 0 <= r.value.1 <= 9
    ensures r.Err? ==> r.error.IndexError? || r.error.TypeError?
  {
    if value == "-" then Ok((-1, -1))
    else if IsNumeral(value) then Ok((NumeralValue(value), NumeralValue(value)))
    else if |value| == 0 then Err(IndexError("string index out of range"))
    else if !IsDigit(value[0]) then Err(TypeError("The value " + value + " is not valid. Try again..."))
    else if |value| < 3 then Err(IndexError("string index out of range"))
    else if IsDigit(value[2]) && value[1] == '-' then Ok((DigitValue(value[0]), DigitValue(value[2])))
    else Err(TypeError("The value " + value + " is not valid. Try again..."))
  }

  /** "-" stands for "not defined": both bounds are -1. */
  lemma UnzipDash()
    ensures UnzipValues("-") == Ok((-1, -1))
  {
  }

  /** A plain number is a range of one value. */
  lemma UnzipNumber(n: nat)
    ensures UnzipValues(NatToString(n)) == Ok((n, n))
  {
    ParseNatToString(n);
  }

  /** "a-b" with single digits gives (a, b). */
  lemma UnzipDigits(a: nat, b: nat)
    requires a < 10 && b < 10
    ensures UnzipValues([DigitChar(a), '-', DigitChar(b)]) == Ok((a, b))
  {
    var s := [DigitChar(a), '-', DigitChar(b)];
    assert !IsNumeral(s) by {
      assert !IsDigit(s[1]);
      assert !AllDigits(s) && !AllDigits(s[1..]);
    }
  }

  /** Only the first three characters are read: "a-b" followed by anything is the range (a, b). */
  lemma UnzipIgnoresTail(a: nat, b: nat, tail: string)
    requires a < 10 && b < 10
    ensures UnzipValues([DigitChar(a), '-', DigitChar(b)] + tail) == Ok((a, b))
  {
    var s := [DigitChar(a), '-', DigitChar(b)] + tail;
    assert !IsNumeral(s) by {
      assert !IsDigit(s[1]);
      assert !AllDigits(s) && !AllDigits(s[1..]);
    }
  }

  /** A range whose lower bound has two or more digits is rejected with TypeError. */
  lemma UnzipWideRange(a: nat, b: nat)
    requires a >= 10
    ensures UnzipValues(NatToString(a) + "-" + NatToString(b)).Err?
    ensures UnzipValues(NatToString(a) + "-" + NatToString(b)).error.TypeError?
  {
    var s := NatToString(a) + "-" + NatToString(b);
    var k := |NatToString(a)|;
    assert s[k] == '-' && !IsDigit(s[k]);
    assert !AllDigits(s) && !AllDigits(s[1..]) by {
      assert s[1..][k - 1] == '-';
    }
    assert s[0] == NatToString(a)[0] && s[1] == NatToString(a)[1];
  }

  /**
   * `select_random_number`: an integer of `[min, max]` for a two-element list, None for
   * anything else; `random.randint` raises ValueError when `min > max`.
   */
  method SelectRandomNumber(rng: Rng, v: ConfValue) returns (r: Result<Option<int>>)
    modifies rng
    ensures r.Ok? && r.value.None? <==> !(v.Numbers? && |v.items| == 2)
    ensures r.Ok? && r.value.Some? ==>
      v.Numbers? && |v.items| == 2 && v.items[0] <= r.value.value <= v.items[1]
    ensures r.Err? <==> v.Numbers? && |v.items| == 2 && v.items[0] > v.items[1]
    ensures r.Err? ==> r.error.ValueError?
  {
    if v.Numbers? && |v.items| == 2 {
      var lo, hi := v.items[0], v.items[1];
      if lo > hi {
        r := Err(ValueError("empty range for randrange()"));
      } else {
        var x := rng.RandInt(lo, hi);
        r := Ok(Some(x));
      }
    } else {
      r := Ok(None);
    }
  }

  /** A weekly food-group frequency: a drawn number, None (no two-element list), or a list copied as is. */
  datatype FoodParam = Num(n: int) | NoValue | Raw(value: ConfValue)

  /** One line of the `FoodGroupParameters` constructor: the food group, its configuration key, and whether it is drawn. */
  datatype Param = Param(name: string, confKey: string, sampled: bool)

  /** The food groups in the order the constructor inserts them; levels 5 and 6 are copied, except Italian Pasta. */
  const FoodTable: seq<Param> := [
    Param("First Level", "first_level", true),
    Param("Sweet Products", "sweet_products", true),
    Param("Dairy Dessert", "dairy_dessert", true),
    Param("Pastries", "pastries", true),
    Param("Chocolate Products", "chocolate_products", true),
    Param("Fruit Dessert", "fruit_dessert", true),
    Param("Other Sweet Products", "other_sweet_products", true),
    Param("Fast Food", "fast_food", true),
    Param("Burger", "burger", true),
    Param("Pizza", "pizza", true),
    Param("Hot Dog", "hot_dog", true),
    Param("Fries", "fries", true),
    Param("Vegetable Snacks", "vegetable_snacks", true),
    Param("Bean Snacks", "bean_snacks", true),
    Param("Other Salty Snacks", "other_salty_snacks", true),
    Param("Pate", "pate", true),
    Param("Sauce", "sauce", true),
    Param("Sugary Drinks", "sugary_drinks", true),
    Param("Other Drinks", "other_drinks", true),
    Param("Second Level", "second_level", true),
    Param("Fatty Meat", "fatty_meat", true),
    Param("Red Meat", "red_meat", true),
    Param("Breaded Meat", "breaded_meat", true),
    Param("Varied Meat", "varied_meat", true),
    Param("Sausage", "sausage", true),
    Param("Mixed Meat", "mixed_meat", true),
    Param("Dumpling", "dumpling", true),
    Param("Pie", "pie", true),
    Param("Stuffed Dough", "stuffed_dough", true),
    Param("Fried Food", "fried_food", true),
    Param("Coffee", "coffee", true),
    Param("Alcoholic Drinks", "alcoholic_drinks", true),
    Param("Third Level", "third_level", true),
    Param("Sandwich and Similar", "sandwich_N_similar", true),
    Param("Sandwich", "sandwich", true),
    Param("Wrap", "wrap", true),
    Param("Fried Seafood", "fried_seafood", true),
    Param("Fried Beans", "fried_beans", true),
    Param("Fried Dairy Products", "fried_dairy_products", true),
    Param("Fried or Breaded Fish", "fried_or_breaded_fish", true),
    Param("Toast", "toast", true),
    Param("Other Types of Bread", "other_types_of_bread", true),
    Param("Other Types of Salad", "other_types_of_salad", true),
    Param("Rice and Meat", "rice_N_meat", true),
    Param("Meat and Vegetables", "meat_N_vegetables", true),
    Param("Mixed Food", "mixed_food", true),
    Param("Vegetable Drinks", "vegetable_drinks", true),
    Param("Fourth Level", "fourth_level", true),
    Param("Soups and Stews", "soups_N_stews", true),
    Param("Soups and Creams", "soups_N_creams", true),
    Param("Stews", "stews", true),
    Param("Fish and Seafood", "fish_N_seafood", true),
    Param("Varied Fish", "varied_fish", true),
    Param("Mixed Fish", "mixed_fish", true),
    Param("Mollusk", "mollusk", true),
    Param("Crustacean", "crustacean", true),
    Param("Varied Seafood", "varied_seafood", true),
    Param("Mixed Seafood", "mixed_seafood", true),
    Param("Beans", "beans", true),
    Param("Cooked Beans", "cooked_beans", true),
    Param("Mixed Beans", "mixed_beans", true),
    Param("Eggs Subcategory", "eggs_subcategory", true),
    Param("Eggs", "eggs", true),
    Param("Mixed Eggs", "mixed_eggs", true),
    Param("Dairy Products", "dairy_products", true),
    Param("Cheese", "cheese", true),
    Param("Yogurt", "yogurt", true),
    Param("White Meat", "white_meat", true),
    Param("Fried Vegetables", "fried_vegetables", true),
    Param("Nut Snacks", "nut_snacks", true),
    Param("Rice and Fish", "rice_N_fish", true),
    Param("Rice and Beans", "rice_N_beans", true),
    Param("Sushi", "sushi", true),
    Param("Fifth Level", "fifth_level", false),
    Param("Vegetables", "vegetables", false),
    Param("Cooked Vegetables", "cooked_vegetables", false),
    Param("Mixed Vegetables", "mixed_vegetables", false),
    Param("Side Dish Salad", "side_dish_salad", false),
    Param("Fruits", "fruits", false),
    Param("Sixth Level", "sixth_level", false),
    Param("Noodle and Pasta", "noodle_N_pasta", false),
    Param("Italian Pasta", "italian_pasta", true),
    Param("Noodle", "noodle", false),
    Param("Other Types of Pasta", "other_types_of_pasta", false),
    Param("Rice Subcategory", "rice_subcategory", false),
    Param("Rice", "rice", false),
    Param("Mixed Rice", "mixed_rice", false),
    Param("Bread", "bread", false)]

  /** The values the constructor can store for a configuration value `v`. */
  predicate InSupport(v: ConfValue, sampled: bool, p: FoodParam) {
    if !sampled then p == Raw(v)
    else if v.Numbers? && |v.items| == 2 then p.Num? && v.items[0] <= p.n <= v.items[1]
    else p == NoValue
  }

  /** Table line `line` can be drawn from `conf`: its key exists and a two-element range is not inverted. */
  predicate LineAccepted(conf: map<string, ConfValue>, line: Param) {
    line.confKey in conf &&
    (line.sampled && conf[line.confKey].Numbers? && |conf[line.confKey].items| == 2 ==>
       conf[line.confKey].items[0] <= conf[line.confKey].items[1])
  }

  /** The configuration lets the constructor finish every line of `table`. */
  predicate Accepts(conf: map<string, ConfValue>, table: seq<Param>) {
    forall i :: 0 <= i < |table| ==> LineAccepted(conf, table[i])
  }

  /** `p` is a value the constructor can store for table line `line`. */
  predicate LineDrawn(conf: map<string, ConfValue>, line: Param, p: FoodParam) {
    line.confKey in conf && InSupport(conf[line.confKey], line.sampled, p)
  }

  /** `drawn` holds one value in the support of each of the first `|drawn|` lines of `table`. */
  predicate Drawn(conf: map<string, ConfValue>, table: seq<Param>, drawn: seq<FoodParam>) {
    |drawn| <= |table| &&
    forall i :: 0 <= i < |drawn| ==> LineDrawn(conf, table[i], drawn[i])
  }

  /** The dictionary the assignments `food_params[name_i] = drawn_i` build, in order. */
  function Assigned(table: seq<Param>, drawn: seq<FoodParam>): (d: seq<(string, FoodParam)>)
    requires |drawn| <= |table|
    ensures DistinctKeys(d)
  {
    if drawn == [] then []
    else
      var n := |drawn| - 1;
      Assign(Assigned(table, drawn[..n]), table[n].name, drawn[n])
  }

  /** The sentinels `remove_food_params` drops: a number equal to -1 or 0. */
  predicate Sentinel(p: FoodParam) {
    p.Num? && (p.n == -1 || p.n == 0)
  }

  /** A value `remove_food_params` keeps. */
  predicate Defined(p: FoodParam) {
    !Sentinel(p)
  }

  /** The entries of `d` that are not sentinels, in their order. */
  function KeepDefined(d: seq<(string, FoodParam)>): seq<(string, FoodParam)> {
    FilterValues(d, Defined)
  }

  /** An entry survives exactly when it is not a sentinel; list-valued and None entries always survive. */
  lemma KeepDefinedMembers(d: seq<(string, FoodParam)>, e: (string, FoodParam))
    ensures e in KeepDefined(d) <==> e in d && !Sentinel(e.1)
    ensures e in d && (e.1.Raw? || e.1.NoValue?) ==> e in KeepDefined(d)
  {
    FilterMembers(d, Defined, e);
  }

  /** The frequencies of one week, held in an ordered dictionary. */
  class FoodGroupParameters {
    var foodParams: seq<(string, FoodParam)>

    predicate Valid()
      reads this
    {
      DistinctKeys(foodParams)
    }

    constructor ()
      ensures foodParams == []
    {
      foodParams := [];
    }

    /**
     * The constructor: draws every line of `FoodTable` from `conf`, then removes the
     * sentinels. A missing key raises KeyError, an inverted range ValueError.
     */
    static method Create(rng: Rng, conf: map<string, ConfValue>) returns (r: Result<FoodGroupParameters>, ghost drawn: seq<FoodParam>)
      modifies rng
      ensures r.Ok? <==> Accepts(conf, FoodTable)
      ensures r.Err? ==> r.error.KeyError? || r.error.ValueError?
      ensures r.Ok? ==> fresh(r.value) && r.value.Valid()
      ensures r.Ok? ==> |drawn| == |FoodTable| && Drawn(conf, FoodTable, drawn)
      ensures r.Ok? ==> r.value.foodParams == KeepDefined(Assigned(FoodTable, drawn))
    {
      var f := new FoodGroupParameters();
      var filled;
      filled, drawn := f.Fill(rng, conf, FoodTable);
      if filled.Err? {
        return Err(filled.error), drawn;
      }
      f.RemoveFoodParams();
      r := Ok(f);
    }

    /** The assignments `food_params[name] = ...` of the constructor, one per line of `table`. */
    method Fill(rng: Rng, conf: map<string, ConfValue>, table: seq<Param>) returns (r: Result<()>, ghost drawn: seq<FoodParam>)
      requires foodParams == []
      modifies this, rng
      ensures r.Ok? <==> Accepts(conf, table)
      ensures r.Err? ==> r.error.KeyError? || r.error.ValueError?
      ensures r.Ok? ==> |drawn| == |table| && Drawn(conf, table, drawn) && foodParams == Assigned(table, drawn)
    {
      drawn := [];
      var i := 0;
      while i < |table|
        invariant 0 <= i <= |table| && |drawn| == i
        invariant Drawn(conf, table, drawn)
        invariant foodParams == Assigned(table, drawn)
        invariant forall j :: 0 <= j < i ==> LineAccepted(conf, table[j])
      {
        var line := table[i];
        if line.confKey !in conf {
          return Err(KeyError(line.confKey)), drawn;
        }
        var p: FoodParam;
        if line.sampled {
          var x := SelectRandomNumber(rng, conf[line.confKey]);
          if x.Err? {
            return Err(x.error), drawn;
          }
          p := if x.value.Some? then Num(x.value.value) else NoValue;
        } else {
          p := Raw(conf[line.confKey]);
        }
        assert (drawn + [p])[..i] == drawn;
        foodParams := Assign(foodParams, line.name, p);
        drawn := drawn + [p];
        i := i + 1;
      }
      r := Ok(());
    }

    /** `remove_food_params`: deletes, key by key, the entries equal to -1 or 0. */
    method RemoveFoodParams()
      requires Valid()
      modifies this
      ensures Valid()
      ensures foodParams == KeepDefined(old(foodParams))
    {
      var snapshot := foodParams;
      var j := 0;
      while j < |snapshot|
        invariant 0 <= j <= |snapshot|
        invariant DistinctKeys(snapshot)
        invariant foodParams == KeepDefined(snapshot[..j]) + snapshot[j..]
      {
        var key := snapshot[j].0;
        FilterStep(snapshot, Defined, j);
        var at := Find(foodParams, key).value;
        if Sentinel(foodParams[at].1) {
          foodParams := Del(foodParams, key);
        }
        j := j + 1;
      }
      assert snapshot[..j] == snapshot;
      FilterDistinct(snapshot, Defined);
    }
  }
}
