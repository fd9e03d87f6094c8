/**
 * The few JavaScript number and string conversions the drill code relies on:
 * the truncating remainder operator, `Number.prototype.toString` on integers,
 * `parseInt` on decimal text, and truthiness of optional numeric settings.
 */
module JsNumbers {
  import opened Wrappers

  /** JavaScript `a % b` for a positive divisor: the sign follows the dividend. */
  function JsMod(a: int, b: int): (r: int)
    requires b > 0
    ensures a >= 0 ==> 0 <= r < b && r == a % b
    ensures a < 0 ==> -b < r <= 0
  {
    if a >= 0 then a % b else -((-a) % b)
  }

  /** `x && ...` on an optional number: absent and 0 are both falsy. */
  predicate Truthy(o: Option<int>) {
    o.Some? && o.value != 0
  }

  /** `x || d` on an optional number. */
  function OrDefault(o: Option<int>, d: int): (r: int)
    ensures Truthy(o) ==> r == o.value
    ensures !Truthy(o) ==> r == d
  {
    if Truthy(o) then o.value else d
  }

  predicate IsDigit(c: char) {
    '0' <= c <= '9'
  }

  predicate IsDigits(s: string) {
    forall i :: 0 <= i < |s| ==> IsDigit(s[i])
  }

  function DigitChar(d: nat): (c: char)
    requires d < 10
    ensures IsDigit(c)
  {
    (48 + d) as char
  }

  function DigitValue(c: char): (d: nat)
    requires IsDigit(c)
    ensures d < 10
  {
    (c as int - '0' as int) as nat
  }

  lemma DigitRoundTrip(d: nat)
    requires d < 10
    ensures DigitValue(DigitChar(d)) == d
  {
  }

  /** Decimal digits of a natural number, most significant first, no leading zeros. */
  function NatToString(n: nat): string
    decreases n
  {
    if n < 10 then [DigitChar(n)] else NatToString(n / 10) + [DigitChar(n % 10)]
  }

  /** The rendering is a non-empty digit string without a leading zero. */
  lemma {:induction false} NatToStringShape(n: nat)
    ensures |NatToString(n)| >= 1 && IsDigits(NatToString(n))
    ensures n >= 10 ==> NatToString(n)[0] != '0'
    decreases n
  {
    if n >= 10 {
      NatToStringShape(n / 10);
    }
  }

  /** `n.toString()` for an integer `n`. */
  function IntToString(n: int): string {
    if n < 0 then "-" + NatToString(-n) else NatToString(n)
  }

  /** The value of a string of decimal digits (leading zeros allowed). */
  function DigitsValue(s: string): nat
    requires IsDigits(s)
    decreases |s|
  {
    if s == [] then 0 else DigitsValue(s[..|s| - 1]) * 10 + DigitValue(s[|s| - 1])
  }

  lemma {:induction false} DigitsValueOfNatToString(n: nat)
    ensures IsDigits(NatToString(n)) && DigitsValue(NatToString(n)) == n
    decreases n
  {
    NatToStringShape(n);
    if n >= 10 {
      var s := NatToString(n);
      assert s[..|s| - 1] == NatToString(n / 10);
      DigitsValueOfNatToString(n / 10);
      DigitRoundTrip(n % 10);
    } else {
      DigitRoundTrip(n);
    }
  }

  /** Length of the longest prefix of `s` made of decimal digits. */
  function DigitPrefixLength(s: string): (k: nat)
    ensures k <= |s| && IsDigits(s[..k])
    ensures k < |s| ==> !IsDigit(s[k])
    decreases |s|
  {
    if s == [] || !IsDigit(s[0]) then 0
    else
      var k := 1 + DigitPrefixLength(s[1..]);
      assert s[..k] == [s[0]] + s[1..][..k - 1];
      k
  }

  /**
   * `parseInt(s, 10)` on text without surrounding white space: an optional
   * sign, then the longest run of digits; `None` stands for `NaN`.
   */
  function ParseInt(s: string): Option<int> {
    if |s| > 0 && (s[0] == '-' || s[0] == '+') then
      var k := DigitPrefixLength(s[1..]);
      if k == 0 then None
      else
        var v: int := DigitsValue(s[1..][..k]);
        if s[0] == '-' then Some(-v) else Some(v)
    else
      var k := DigitPrefixLength(s);
      if k == 0 then None else Some(DigitsValue(s[..k]))
  }

  lemma {:induction false} DigitPrefixOfDigits(s: string)
    requires IsDigits(s)
    ensures DigitPrefixLength(s) == |s|
    decreases |s|
  {
    if s != [] {
      assert IsDigit(s[0]);
      DigitPrefixOfDigits(s[1..]);
    }
  }

  /** Parsing an unsigned rendering gives back the number. */
  lemma ParseIntOfNatToString(n: nat)
    ensures ParseInt(NatToString(n)) == Some(n)
  {
    var s := NatToString(n);
    DigitsValueOfNatToString(n);
    assert IsDigit(s[0]);
    ParseIntOfDigits(s);
  }

  /** `parseInt` undoes `toString` on every integer. */
  lemma ParseIntOfIntToString(n: int)
    ensures ParseInt(IntToString(n)) == Some(n)
  {
    if n < 0 {
      var s := IntToString(n);
      var t := NatToString(-n);
      DigitsValueOfNatToString(-n);
      assert s == "-" + t && s[1..] == t;
      DigitPrefixOfDigits(t);
      assert t[..|t|] == t;
    } else {
      ParseIntOfNatToString(n);
    }
  }

  /** Parsing a non-empty digit string yields its value. */
  lemma ParseIntOfDigits(s: string)
    requires |s| > 0 && IsDigits(s)
    ensures ParseInt(s) == Some(DigitsValue(s) as int)
  {
    assert IsDigit(s[0]);
    DigitPrefixOfDigits(s);
    assert s[..|s|] == s;
  }

  /** `toString` is injective, so string comparison of rendered numbers is number comparison. */
  lemma IntToStringInjective(m: int, n: int)
    ensures IntToString(m) == IntToString(n) <==> m == n
  {
    if IntToString(m) == IntToString(n) {
      ParseIntOfIntToString(m);
      ParseIntOfIntToString(n);
    }
  }

  /** `parts.join(sep)`. */
  function Join(parts: seq<string>, sep: string): string {
    if parts == [] then ""
    else if |parts| == 1 then parts[0]
    else Join(parts[..|parts| - 1], sep) + sep + parts[|parts| - 1]
  }

  /** `nums.map(n => n.toString())`. */
  function Strings(nums: seq<int>): (r: seq<string>)
    ensures |r| == |nums|
    ensures forall i :: 0 <= i < |nums| ==> r[i] == IntToString(nums[i])
  {
    if nums == [] then [] else Strings(nums[..|nums| - 1]) + [IntToString(nums[|nums| - 1])]
  }

  /** `slice(0, -1)`: the text without its last character ("" stays ""). */
  function DropLast(s: string): (r: string)
    ensures |s| > 0 ==> s == r + [s[|s| - 1]]
    ensures |s| == 0 ==> r == ""
  {
    if |s| == 0 then "" else s[..|s| - 1]
  }

  /** A rendered integer ends in a digit, so it is never "NaN" or "undefined". */
  lemma EndsInDigit(n: int)
    ensures |IntToString(n)| > 0 && IsDigit(IntToString(n)[|IntToString(n)| - 1])
  {
    var m: nat := if n < 0 then -n else n;
    assert NatToString(m)[|NatToString(m)| - 1] == DigitChar(m % 10);
  }

  /** `${x}` for a number that may be `undefined` (`None`), as read past the end of an array. */
  function ShowOrUndefined(x: Option<int>): string {
    if x.Some? then IntToString(x.value) else "undefined"
  }

  /** Only a missing value shows as "undefined": a number's text ends in a digit. */
  lemma ShowsUndefinedOnlyWhenMissing(x: Option<int>)
    ensures x.None? <==> ShowOrUndefined(x) == "undefined"
  {
    if x.Some? {
      EndsInDigit(x.value);
    }
  }
}
