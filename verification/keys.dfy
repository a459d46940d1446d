/**
 * The string keys of the schedule (`week_in2_str`, `day_in2_str`, `meal_in2_str`)
 * and the number parsed back from a key, `int(key.split("_")[-1])`.
 */
module Keys {
  import opened Wrappers

  predicate IsDigit(c: char) {
    '0' <= c <= '9'
  }

  predicate AllDigits(s: string) {
    forall i :: 0 <= i < |s| ==> IsDigit(s[i])
  }

  function DigitChar(d: nat): (c: char)
    requires d < 10
    ensures IsDigit(c) && c as int - '0' as int == d
  {
    (d + '0' as int) as char
  }

  /** `str(n)` for a non-negative integer: its decimal digits, without leading zeros. */
  function NatToString(n: nat): (s: string)
    ensures |s| >= 1 && AllDigits(s)
    ensures |s| == 1 <==> n < 10
    ensures n >= 10 ==> s[0] != '0'
    decreases n
  {
    if n < 10 then [DigitChar(n)] else NatToString(n / 10) + [DigitChar(n % 10)]
  }

  /** The value of a string of decimal digits (leading zeros allowed, as `int()` allows them). */
  function ParseDigits(s: string): nat
    requires AllDigits(s)
  {
    if s == [] then 0 else ParseDigits(s[..|s| - 1]) * 10 + (s[|s| - 1] as int - '0' as int)
  }

  /** `s.zfill(w)`: `s` left-padded with zeros to width `w`. */
  function ZFill(s: string, w: nat): (r: string)
    ensures |r| == if |s| >= w then |s| else w
    ensures r[|r| - |s|..] == s
    ensures forall i :: 0 <= i < |r| - |s| ==> r[i] == '0'
  {
    if |s| >= w then s else seq(w - |s|, _ => '0') + s
  }

  function WeekInStr(week: nat): string {
    "week_" + ZFill(NatToString(week), 1)
  }

  function DayInStr(day: nat): string {
    "day_" + ZFill(NatToString(day), 2)
  }

  function MealInStr(meal: nat): string {
    "meal_" + ZFill(NatToString(meal), 1)
  }

  /** `key.split("_")[-1]`: the text after the last underscore (all of `key` when there is none). */
  function LastField(key: string): (r: string)
    ensures '_' !in r
    ensures |r| <= |key| && r == key[|key| - |r|..]
  {
    if key == [] || key[|key| - 1] == '_' then []
    else LastField(key[..|key| - 1]) + [key[|key| - 1]]
  }

  /** `int(text)` restricted to unsigned decimal numerals; `None` where the model has no value. */
  function ParseNat(text: string): (r: Option<nat>)
    ensures r.Some? <==> text != [] && AllDigits(text)
  {
    if text != [] && AllDigits(text) then Some(ParseDigits(text)) else None
  }

  /** The number a schedule key ends with, `int(key.split("_")[-1])`. */
  function KeyNumber(key: string): Option<nat> {
    ParseNat(LastField(key))
  }

  lemma {:induction false} ParseNatToString(n: nat)
    ensures ParseDigits(NatToString(n)) == n
    decreases n
  {
    if n >= 10 {
      var s := NatToString(n);
      ParseNatToString(n / 10);
      assert s[..|s| - 1] == NatToString(n / 10);
    }
  }

  lemma {:induction false} ParseLeadingZero(s: string)
    requires AllDigits(s)
    ensures AllDigits(['0'] + s) && ParseDigits(['0'] + s) == ParseDigits(s)
    decreases |s|
  {
    if s != [] {
      ParseLeadingZero(s[..|s| - 1]);
      assert (['0'] + s)[..|s|] == ['0'] + s[..|s| - 1];
    }
  }

  lemma {:induction false} ParseZeroPadded(s: string, w: nat)
    requires AllDigits(s)
    ensures AllDigits(ZFill(s, w)) && ParseDigits(ZFill(s, w)) == ParseDigits(s)
    decreases w - |s|
  {
    if |s| < w {
      ParseLeadingZero(s);
      ParseZeroPadded(['0'] + s, w);
      assert ZFill(s, w) == ZFill(['0'] + s, w);
    }
  }

  lemma {:induction false} LastFieldAfterUnderscore(head: string, digits: string)
    requires head != [] && head[|head| - 1] == '_'
    requires '_' !in digits
    ensures LastField(head + digits) == digits
    decreases |digits|
  {
    var key := head + digits;
    if digits == [] {
      assert key == head;
    } else {
      var last := digits[|digits| - 1];
      assert last != '_' by { assert last in digits; }
      assert key[..|key| - 1] == head + digits[..|digits| - 1];
      LastFieldAfterUnderscore(head, digits[..|digits| - 1]);
    }
  }

  /** The number a key ends with is read back from its digits, whatever the prefix and padding. */
  lemma {:induction false} KeyNumberOfDigits(head: string, n: nat, w: nat)
    requires head != [] && head[|head| - 1] == '_'
    ensures KeyNumber(head + ZFill(NatToString(n), w)) == Some(n)
  {
    var d := ZFill(NatToString(n), w);
    ParseNatToString(n);
    ParseZeroPadded(NatToString(n), w);
    assert '_' !in d by {
      forall i | 0 <= i < |d| ensures d[i] != '_' {
        assert IsDigit(d[i]);
      }
    }
    LastFieldAfterUnderscore(head, d);
  }

  /** `int(key.split("_")[-1])` recovers the number a meal key was built from. */
  lemma MealKeyRoundTrip(n: nat)
    ensures KeyNumber(MealInStr(n)) == Some(n)
  {
    KeyNumberOfDigits("meal_", n, 1);
  }

  /** The same holds for a day key, its zero padding included. */
  lemma DayKeyRoundTrip(n: nat)
    ensures KeyNumber(DayInStr(n)) == Some(n)
  {
    KeyNumberOfDigits("day_", n, 2);
  }

  /** Distinct meal numbers give distinct meal keys. */
  lemma MealKeyInjective(a: nat, b: nat)
    ensures MealInStr(a) == MealInStr(b) <==> a == b
  {
    MealKeyRoundTrip(a);
    MealKeyRoundTrip(b);
  }

  /** Day keys are padded to two digits, week and meal keys are not padded at all. */
  lemma KeyPadding(n: nat)
    ensures n < 10 ==> DayInStr(n) == "day_0" + NatToString(n)
    ensures n >= 10 ==> DayInStr(n) == "day_" + NatToString(n)
    ensures MealInStr(n) == "meal_" + NatToString(n)
    ensures WeekInStr(n) == "week_" + NatToString(n)
  {
    if n < 10 {
      var z := ZFill(NatToString(n), 2);
      assert z == ['0'] + NatToString(n);
    }
  }
}
