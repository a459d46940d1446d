/**
 * The seven dish categories and the `Dish` object of
 * src/AI4FoodNutritionFW_classes.py: seven lists of dish names, one per category.
 */
module Dishes {
  import opened Wrappers

  datatype DishType = Main | Bread | Dessert | Drinks | Appetizer | Snack | Side

  /** The categories in the order `Dish` declares its lists. */
  const AllTypes: seq<DishType> := [Main, Bread, Dessert, Drinks, Appetizer, Snack, Side]

  /** The name of a category, as `get_all_dishes` spells its keys. */
  function Name(t: DishType): string {
    match t
    case Main => "main"
    case Bread => "bread"
    case Dessert => "dessert"
    case Drinks => "drinks"
    case Appetizer => "appetizer"
    case Snack => "snack"
    case Side => "side"
  }

  /**
   * The characters Python's `str.lower()` turns into a plain letter "a" to "z": "A" to "Z",
   * and U+212A KELVIN SIGN, which becomes "k". Every other character is kept; its Python
   * lower-case form holds no such letter or, for U+0130, a combining mark after its "i", so
   * it can no more be part of a category name there than here.
   */
  function LowerChar(c: char): char {
    if 'A' <= c <= 'Z' then (c as int - 'A' as int + 'a' as int) as char
    else if c == '\U{212A}' then 'k'
    else c
  }

  /** `str.lower()` as far as comparing the result with the category names can tell. */
  function Lower(s: string): (r: string)
    ensures |r| == |s|
  {
    if s == [] then [] else [LowerChar(s[0])] + Lower(s[1..])
  }

  /**
   * The category whose name is exactly `s`: the comparison chain of
   * `remove_dish` and `get_num_current_dishes`.
   */
  function ExactType(s: string): (r: Option<DishType>)
    ensures r.Some? ==> Name(r.value) == s
    ensures r.None? ==> forall t :: Name(t) != s
  {
    if s == "main" then Some(Main)
    else if s == "bread" then Some(Bread)
    else if s == "dessert" then Some(Dessert)
    else if s == "drinks" then Some(Drinks)
    else if s == "appetizer" then Some(Appetizer)
    else if s == "snack" then Some(Snack)
    else if s == "side" then Some(Side)
    else None
  }

  /** The category `add_dish` files a dish under: `str(dish_type).lower()` matched against the names. */
  function ParseType(s: string): Option<DishType> {
    ExactType(Lower(s))
  }

  /** `add_dish` accepts a category string exactly when its lower-case form is one of the seven names. */
  lemma ParseTypeMeaning(s: string, t: DishType)
    ensures ParseType(s) == Some(t) <==> Lower(s) == Name(t)
    ensures ParseType(s) == None <==> forall u :: Lower(s) != Name(u)
  {
  }

  lemma {:induction false} LowerOfLowerCase(s: string)
    requires forall i :: 0 <= i < |s| ==> s[i] == '_' || 'a' <= s[i] <= 'z'
    ensures Lower(s) == s
  {
    if s != [] {
      LowerOfLowerCase(s[1..]);
    }
  }

  /** Every category name is accepted by the exact comparison chain. */
  lemma ExactName(t: DishType)
    ensures ExactType(Name(t)) == Some(t)
  {
  }

  /** Every category name is accepted by both parsers. */
  lemma ParseName(t: DishType)
    ensures ExactType(Name(t)) == Some(t)
    ensures ParseType(Name(t)) == Some(t)
  {
    ExactName(t);
    LowerOfLowerCase(Name(t));
  }

  /** Lower-casing twice is lower-casing once. */
  lemma {:induction false} LowerTwice(s: string)
    ensures Lower(Lower(s)) == Lower(s)
  {
    if s != [] {
      LowerTwice(s[1..]);
      assert Lower(s)[1..] == Lower(s[1..]);
    }
  }

  /** Case does not matter to `add_dish`: a category string and its lower-case form are filed alike. */
  lemma ParseIgnoresCase(s: string)
    ensures ParseType(Lower(s)) == ParseType(s)
  {
    LowerTwice(s);
  }

  /**
   * `remove_dish` compares names exactly: it accepts no string with an upper-case letter, and
   * what it accepts `add_dish` files under the same category.
   */
  lemma ExactNames(s: string)
    ensures ExactType(s).Some? ==> forall i :: 0 <= i < |s| ==> !('A' <= s[i] <= 'Z')
    ensures ExactType(s).Some? ==> ParseType(s) == ExactType(s)
  {
    if ExactType(s).Some? {
      var t := ExactType(s).value;
      NameLetters(t);
      ParseName(t);
    }
  }

  /** The category names are spelled in the letters "a" to "z". */
  lemma NameLetters(t: DishType)
    ensures forall i :: 0 <= i < |Name(t)| ==> 'a' <= Name(t)[i] <= 'z'
  {
  }

  /** The position of the first occurrence of `x` in `l`. */
  function IndexOf(l: seq<string>, x: string): (i: nat)
    requires x in l
    ensures i < |l| && l[i] == x && x !in l[..i]
  {
    if l[0] == x then 0 else assert l[1..][..IndexOf(l[1..], x)] == l[..IndexOf(l[1..], x) + 1][1..]; 1 + IndexOf(l[1..], x)
  }

  /** `list.remove(x)` when `x` is present (its first occurrence goes), and the list itself otherwise. */
  function RemoveFirst(l: seq<string>, x: string): seq<string> {
    if x in l then l[..IndexOf(l, x)] + l[IndexOf(l, x) + 1..] else l
  }

  /** Removing takes out exactly one copy of a present name, and nothing otherwise. */
  lemma RemoveFirstCount(l: seq<string>, x: string)
    ensures x in l ==> multiset(RemoveFirst(l, x)) == multiset(l) - multiset{x}
    ensures x !in l ==> RemoveFirst(l, x) == l
  {
    if x in l {
      var i := IndexOf(l, x);
      assert l == l[..i] + [x] + l[i + 1..];
    }
  }

  /** The value of a `Dish` object: its seven lists, in declaration order. */
  datatype Bucket = Bucket(main: seq<string>, bread: seq<string>, dessert: seq<string>,
                           drinks: seq<string>, appetizer: seq<string>, snack: seq<string>,
                           side: seq<string>)
  {
    /** The list of category `t`. */
    function Get(t: DishType): seq<string> {
      match t
      case Main => main
      case Bread => bread
      case Dessert => dessert
      case Drinks => drinks
      case Appetizer => appetizer
      case Snack => snack
      case Side => side
    }

    /** This bucket with the list of category `t` replaced by `l`. */
    function Put(t: DishType, l: seq<string>): (r: Bucket)
      ensures r.Get(t) == l
      ensures forall u :: u != t ==> r.Get(u) == Get(u)
    {
      match t
      case Main => this.(main := l)
      case Bread => this.(bread := l)
      case Dessert => this.(dessert := l)
      case Drinks => this.(drinks := l)
      case Appetizer => this.(appetizer := l)
      case Snack => this.(snack := l)
      case Side => this.(side := l)
    }

    /** `get_number_dishes`: the total length of the seven lists. */
    function Count(): nat {
      |main| + |bread| + |dessert| + |drinks| + |appetizer| + |snack| + |side|
    }

    /** Appending `x` to the list of `t` changes that list only, and adds one dish. */
    function Add(t: DishType, x: string): (r: Bucket)
      ensures r.Get(t) == Get(t) + [x]
      ensures forall u :: u != t ==> r.Get(u) == Get(u)
      ensures r.Count() == Count() + 1
    {
      Put(t, Get(t) + [x])
    }
  }

  const EmptyBucket: Bucket := Bucket([], [], [], [], [], [], [])

  /** Two buckets with the same seven lists are the same bucket. */
  lemma BucketEq(a: Bucket, b: Bucket)
    requires forall t :: a.Get(t) == b.Get(t)
    ensures a == b
  {
    assert a.Get(Main) == b.Get(Main) && a.Get(Bread) == b.Get(Bread) && a.Get(Dessert) == b.Get(Dessert);
    assert a.Get(Drinks) == b.Get(Drinks) && a.Get(Appetizer) == b.Get(Appetizer);
    assert a.Get(Snack) == b.Get(Snack) && a.Get(Side) == b.Get(Side);
  }

  /** The number of dishes is zero exactly when all seven lists are empty. */
  lemma CountZero(b: Bucket)
    ensures b.Count() == 0 <==> forall t :: b.Get(t) == []
  {
    if forall t :: b.Get(t) == [] {
      assert b.Get(Main) == [] && b.Get(Bread) == [] && b.Get(Dessert) == [] && b.Get(Drinks) == [];
      assert b.Get(Appetizer) == [] && b.Get(Snack) == [] && b.Get(Side) == [];
    }
  }

  /** The entries `get_all_dishes_json` emits for the categories `ts`: the non-empty lists, under their names. */
  function JsonEntries(b: Bucket, ts: seq<DishType>): (r: seq<(string, seq<string>)>)
    ensures |r| <= |ts|
  {
    if ts == [] then []
    else
      var rest := JsonEntries(b, ts[1..]);
      if b.Get(ts[0]) != [] then [(Name(ts[0]), b.Get(ts[0]))] + rest else rest
  }

  lemma NameInjective(t: DishType, u: DishType)
    ensures Name(t) == Name(u) <==> t == u
  {
  }

  /** Every category is listed in `AllTypes`. */
  lemma AllTypesComplete(t: DishType)
    ensures t in AllTypes
  {
    match t
    case Main => assert AllTypes[0] == t;
    case Bread => assert AllTypes[1] == t;
    case Dessert => assert AllTypes[2] == t;
    case Drinks => assert AllTypes[3] == t;
    case Appetizer => assert AllTypes[4] == t;
    case Snack => assert AllTypes[5] == t;
    case Side => assert AllTypes[6] == t;
  }

  /** An entry named after `t` is present exactly when the list of `t` is non-empty, and then it holds that list. */
  lemma {:induction false} JsonEntriesContents(b: Bucket, ts: seq<DishType>, t: DishType)
    requires t in ts
    ensures (exists e :: e in JsonEntries(b, ts) && e.0 == Name(t)) <==> b.Get(t) != []
    ensures forall e :: e in JsonEntries(b, ts) && e.0 == Name(t) ==> e.1 == b.Get(t)
  {
    var r := JsonEntries(b, ts);
    var rest := JsonEntries(b, ts[1..]);
    NameInjective(t, ts[0]);
    if t == ts[0] {
      if t in ts[1..] {
        JsonEntriesContents(b, ts[1..], t);
      } else {
        NamesAbsent(b, ts[1..], t);
      }
      if b.Get(t) != [] {
        assert r[0] == (Name(t), b.Get(t));
      }
    } else {
      JsonEntriesContents(b, ts[1..], t);
      if b.Get(ts[0]) != [] {
        assert r == [(Name(ts[0]), b.Get(ts[0]))] + rest;
      }
    }
  }

  /** No entry is named after a category outside `ts`. */
  lemma {:induction false} NamesAbsent(b: Bucket, ts: seq<DishType>, t: DishType)
    requires t !in ts
    ensures forall e :: e in JsonEntries(b, ts) ==> e.0 != Name(t)
  {
    if ts != [] {
      NameInjective(t, ts[0]);
      NamesAbsent(b, ts[1..], t);
    }
  }

  /** `get_all_dishes_json`: the non-empty categories of `b`, in declaration order. */
  function AllDishesJson(b: Bucket): seq<(string, seq<string>)> {
    JsonEntries(b, AllTypes)
  }

  /** The JSON form holds exactly the non-empty categories, each with its list unchanged. */
  lemma AllDishesJsonContents(b: Bucket, t: DishType)
    ensures (exists e :: e in AllDishesJson(b) && e.0 == Name(t)) <==> b.Get(t) != []
    ensures forall e :: e in AllDishesJson(b) && e.0 == Name(t) ==> e.1 == b.Get(t)
  {
    AllTypesComplete(t);
    JsonEntriesContents(b, AllTypes, t);
  }

  /** `add_dish` on the value of a `Dish`: the bucket with `dish` appended, or the ValueError it raises. */
  function AddByName(b: Bucket, dish: string, dishType: string): (r: Result<Bucket>)
    ensures r.Ok? <==> ParseType(dishType).Some?
    ensures r.Ok? ==> r.value == b.Add(ParseType(dishType).value, dish)
    ensures r.Err? ==> r.error.ValueError?
  {
    match ParseType(dishType)
    case Some(t) => Ok(b.Add(t, dish))
    case None => Err(ValueError("The dish type " + dishType + " is not valid"))
  }

  /** `remove_dish` on the value of a `Dish`: whether the category name was known, and the new bucket. */
  function RemoveByName(b: Bucket, dish: string, dishType: string): (bool, Bucket) {
    match ExactType(dishType)
    case Some(t) => (true, b.Put(t, RemoveFirst(b.Get(t), dish)))
    case None => (false, b)
  }

  /** A `Dish` object: the seven category lists, updated in place. */
  class Dish {
    var main: seq<string>
    var bread: seq<string>
    var dessert: seq<string>
    var drinks: seq<string>
    var appetizer: seq<string>
    var snack: seq<string>
    var sideDish: seq<string>

    function Value(): Bucket
      reads this
    {
      Bucket(main, bread, dessert, drinks, appetizer, snack, sideDish)
    }

    constructor ()
      ensures Value() == EmptyBucket
    {
      main, bread, dessert, drinks := [], [], [], [];
      appetizer, snack, sideDish := [], [], [];
    }

    /**
     * `add_dish`: appends `dish` to the list named by `dishType`, case-insensitively;
     * any other category raises ValueError and leaves the object unchanged.
     */
    method AddDish(dish: string, dishType: string) returns (r: Result<()>)
      modifies this
      ensures ParseType(dishType).Some? ==> r.Ok? && Value() == old(Value()).Add(ParseType(dishType).value, dish)
      ensures ParseType(dishType).None? ==> r.Err? && r.error.ValueError? && Value() == old(Value())
      ensures r.Ok? ==> AddByName(old(Value()), dish, dishType) == Ok(Value())
    {
      var t := ParseType(dishType);
      if t.None? {
        return Err(ValueError("The dish type " + dishType + " is not valid"));
      }
      r := Ok(());
      match t.value
      case Main => main := main + [dish];
      case Bread => bread := bread + [dish];
      case Dessert => dessert := dessert + [dish];
      case Drinks => drinks := drinks + [dish];
      case Appetizer => appetizer := appetizer + [dish];
      case Snack => snack := snack + [dish];
      case Side => sideDish := sideDish + [dish];
    }

    /**
     * `remove_dish`: for one of the seven exact names, removes the first occurrence of
     * `dish` from that list (if any) and answers true; for any other name answers false.
     */
    method RemoveDish(dish: string, dishType: string) returns (known: bool)
      modifies this
      ensures known <==> ExactType(dishType).Some?
      ensures known ==> var t := ExactType(dishType).value;
                        Value() == old(Value()).Put(t, RemoveFirst(old(Value()).Get(t), dish))
      ensures !known ==> Value() == old(Value())
      ensures RemoveByName(old(Value()), dish, dishType) == (known, Value())
    {
      var t := ExactType(dishType);
      known := t.Some?;
      if known {
        match t.value
        case Main => main := RemoveFirst(main, dish);
        case Bread => bread := RemoveFirst(bread, dish);
        case Dessert => dessert := RemoveFirst(dessert, dish);
        case Drinks => drinks := RemoveFirst(drinks, dish);
        case Appetizer => appetizer := RemoveFirst(appetizer, dish);
        case Snack => snack := RemoveFirst(snack, dish);
        case Side => sideDish := RemoveFirst(sideDish, dish);
      }
    }
  }
}
