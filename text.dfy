/** String helpers: prefix and substring tests, ASCII upper-casing, decimal
    rendering of integers (`toString()` / template literals) and the
    leading-integer parse that `parseInt` performs. */
module Text {
  import opened Wrappers

  /** `s.startsWith(prefix)`. */
  predicate StartsWith(s: string, prefix: string)
  {
    |prefix| <= |s| && s[..|prefix|] == prefix
  }

  /** `s.includes(sub)`. */
  predicate Contains(s: string, sub: string)
    decreases |s|
  {
    StartsWith(s, sub) || (|s| > 0 && Contains(s[1..], sub))
  }

  function UpperChar(c: char): char
  {
    if 'a' <= c <= 'z' then (c as int - 32) as char else c
  }

  /** `s.toUpperCase()` restricted to ASCII letters. */
  function ToUpper(s: string): (r: string)
    ensures |r| == |s|
    ensures forall i :: 0 <= i < |s| ==> r[i] == UpperChar(s[i])
  {
    if |s| == 0 then "" else [UpperChar(s[0])] + ToUpper(s[1..])
  }

  predicate NoLowerCase(s: string)
  {
    forall i :: 0 <= i < |s| ==> !('a' <= s[i] <= 'z')
  }

  /** Upper-casing a string that has no lower-case letter returns it unchanged,
      so upper-casing twice is the same as once. */
  lemma UpperOfUpper(s: string)
    ensures NoLowerCase(ToUpper(s))
    ensures NoLowerCase(s) ==> ToUpper(s) == s
  {
  }

  function DigitChar(d: nat): char
    requires d < 10
  {
    "0123456789"[d]
  }

  predicate IsDigit(c: char)
  {
    '0' <= c <= '9'
  }

  /** Decimal rendering of a non-negative integer, as `String(n)`. */
  function NatToDecimal(n: nat): (r: string)
    ensures |r| > 0
    ensures forall i :: 0 <= i < |r| ==> IsDigit(r[i])
    ensures r[|r| - 1] == DigitChar(n % 10)
  {
    if n < 10 then [DigitChar(n)] else NatToDecimal(n / 10) + [DigitChar(n % 10)]
  }

  lemma DigitCharInjective(a: nat, b: nat)
    requires a < 10 && b < 10 && DigitChar(a) == DigitChar(b)
    ensures a == b
  {
  }

  /** Distinct numbers render to distinct strings. */
  lemma {:induction false} NatToDecimalInjective(a: nat, b: nat)
    requires NatToDecimal(a) == NatToDecimal(b)
    ensures a == b
  {
    var ra, rb := NatToDecimal(a), NatToDecimal(b);
    DigitCharInjective(a % 10, b % 10);
    if a >= 10 && b >= 10 {
      assert NatToDecimal(a / 10) == ra[..|ra| - 1];
      assert NatToDecimal(b / 10) == rb[..|rb| - 1];
      NatToDecimalInjective(a / 10, b / 10);
    }
  }

  /** Decimal rendering of any integer: a minus sign before the digits of a negative one. */
  function IntToDecimal(n: int): (r: string)
    ensures |r| > 0
    ensures n >= 0 ==> r == NatToDecimal(n)
    ensures n < 0 ==> r == "-" + NatToDecimal(-n)
  {
    if n >= 0 then NatToDecimal(n) else "-" + NatToDecimal(-n)
  }

  /** Value of a run of decimal digits. */
  function DigitsValue(s: string): (v: nat)
    requires forall i :: 0 <= i < |s| ==> IsDigit(s[i])
  {
    if |s| == 0 then 0
    else
      assert IsDigit(s[|s| - 1]);
      10 * DigitsValue(s[..|s| - 1]) + (s[|s| - 1] as int - '0' as int)
  }

  /** Length of the longest prefix of s made of decimal digits. */
  function DigitRun(s: string): (n: nat)
    ensures n <= |s|
    ensures forall i :: 0 <= i < n ==> IsDigit(s[i])
    ensures n < |s| ==> !IsDigit(s[n])
  {
    if |s| == 0 || !IsDigit(s[0]) then 0 else 1 + DigitRun(s[1..])
  }

  /** `parseInt(s)` for strings without leading white space: an optional sign,
      then the longest run of digits; None (NaN) when there is no digit. */
  function LeadingInt(s: string): (r: Option<int>)
    ensures r.Some? <==> (|s| > 0 && IsDigit(s[0])) || (|s| > 1 && s[0] in "+-" && IsDigit(s[1]))
  {
    if |s| > 0 && s[0] in "+-" then
      var digits := s[1..][..DigitRun(s[1..])];
      if |digits| == 0 then None
      else if s[0] == '-' then Some(-(DigitsValue(digits) as int))
      else Some(DigitsValue(digits))
    else
      var digits := s[..DigitRun(s)];
      if |digits| == 0 then None else Some(DigitsValue(digits))
  }

  lemma DigitCharValue(d: nat)
    requires d < 10
    ensures DigitChar(d) as int - '0' as int == d
  {
  }

  /** Reading back the digits of a rendered number gives the number. */
  lemma {:induction false} DigitsValueOfDecimal(n: nat)
    ensures DigitsValue(NatToDecimal(n)) == n
  {
    var r := NatToDecimal(n);
    DigitCharValue(n % 10);
    if n < 10 {
      assert r[..0] == "";
    } else {
      assert r[..|r| - 1] == NatToDecimal(n / 10);
      DigitsValueOfDecimal(n / 10);
    }
  }

  /** A run of digits followed by a non-digit (or nothing) is read up to its end. */
  lemma {:induction false} DigitRunOfDigits(s: string, suffix: string)
    requires forall i :: 0 <= i < |s| ==> IsDigit(s[i])
    requires |suffix| == 0 || !IsDigit(suffix[0])
    ensures DigitRun(s + suffix) == |s|
  {
    if |s| == 0 {
      assert s + suffix == suffix;
    } else {
      assert (s + suffix)[1..] == s[1..] + suffix;
      DigitRunOfDigits(s[1..], suffix);
    }
  }

  /** `parseInt(String(n) + suffix)` is n whenever the suffix does not start with a digit. */
  lemma LeadingIntOfDecimal(n: nat, suffix: string)
    requires |suffix| == 0 || !IsDigit(suffix[0])
    ensures LeadingInt(NatToDecimal(n) + suffix) == Some(n)
  {
    var d := NatToDecimal(n);
    DigitRunOfDigits(d, suffix);
    assert (d + suffix)[..|d|] == d;
    assert (d + suffix)[0] == d[0];
    DigitsValueOfDecimal(n);
  }

  /** The intervals the chart code passes parse as their leading number. */
  lemma LeadingIntOfMinuteIntervals()
    ensures LeadingInt("1min") == Some(1)
    ensures LeadingInt("15min") == Some(15)
    ensures LeadingInt("min") == None
  {
    assert NatToDecimal(1) + "min" == "1min";
    LeadingIntOfDecimal(1, "min");
    assert NatToDecimal(15) == "15" by { assert NatToDecimal(1) == "1"; }
    assert NatToDecimal(15) + "min" == "15min";
    LeadingIntOfDecimal(15, "min");
  }
}
