/**
 * Reading a number's rendering column by column, as the written-calculation
 * widgets lay digits out in hundreds, tens and ones columns.
 */
module Columns {
  import opened JsNumbers

  /**
   * `getDigit`: the character `p` places from the right end of `s`, or ""
   * when `s` is too short (or `p` is negative).
   */
  function ColumnDigit(s: string, p: int): (r: string)
    ensures |r| <= 1
    ensures 0 <= p < |s| <==> |r| == 1
    ensures 0 <= p < |s| ==> r[0] == s[|s| - 1 - p]
  {
    if p < 0 || p >= |s| then "" else [s[|s| - 1 - p]]
  }

  /** Appending a character makes it the ones column and moves every other column one place left. */
  lemma ColumnsOfAppend(t: string, d: char, p: nat)
    ensures ColumnDigit(t + [d], 0) == [d]
    ensures ColumnDigit(t + [d], p + 1) == ColumnDigit(t, p)
  {
    var s := t + [d];
    if p < |t| {
      assert s[|s| - 1 - (p + 1)] == t[|t| - 1 - p];
    }
  }

  /**
   * The columns of a rendered natural number: the ones column is `n % 10`,
   * and each further column is the corresponding column of `n / 10`, empty
   * once the number has run out of digits.
   */
  lemma ColumnsOfNat(n: nat, p: nat)
    ensures ColumnDigit(NatToString(n), 0) == [DigitChar(n % 10)]
    ensures n >= 10 ==> ColumnDigit(NatToString(n), p + 1) == ColumnDigit(NatToString(n / 10), p)
    ensures n < 10 ==> ColumnDigit(NatToString(n), p + 1) == ""
  {
    if n >= 10 {
      ColumnsOfAppend(NatToString(n / 10), DigitChar(n % 10), p);
    } else {
      assert NatToString(n) == [DigitChar(n)] && n % 10 == n;
    }
  }

  /** A string of at most three characters, read right-aligned across the three columns, is itself. */
  lemma RightAligned(s: string)
    requires |s| <= 3
    ensures ColumnDigit(s, 2) + ColumnDigit(s, 1) + ColumnDigit(s, 0) == s
  {
    if |s| == 3 {
      assert s == [s[0]] + [s[1]] + [s[2]];
    } else if |s| == 2 {
      assert s == [s[0]] + [s[1]];
    }
  }

  /** The number of digits of a number below 1000. */
  lemma NatWidth(n: nat)
    requires n <= 999
    ensures |NatToString(n)| == if n < 10 then 1 else if n < 100 then 2 else 3
  {
    if n >= 10 {
      assert |NatToString(n)| == |NatToString(n / 10)| + 1;
      if n >= 100 {
        assert |NatToString(n / 10)| == |NatToString(n / 10 / 10)| + 1;
      }
    }
  }
}
