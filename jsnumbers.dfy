/** Conversions between integers and text as JavaScript performs them:
    `Number.prototype.toString()` of an integer, the global `parseInt` with
    no radix argument, and `Math.round`. JavaScript numbers are doubles; the
    model uses unbounded integers and reals, so precision loss above 2^53
    is not represented. */
module JsNumbers {
  import opened Wrappers
  import opened Strings

  function DigitChar(d: nat): (c: char)
    requires d < 10
    ensures IsDigit(c)
  {
    ('0' as int + d) as char
  }

  /** The value of a digit in bases up to 36 (`0-9`, `a-z`, `A-Z`); 36 for
      any other character, so that no base accepts it. */
  function RadixDigitValue(c: char): nat {
    if '0' <= c <= '9' then c as int - '0' as int
    else if 'a' <= c <= 'z' then c as int - 'a' as int + 10
    else if 'A' <= c <= 'Z' then c as int - 'A' as int + 10
    else 36
  }

  predicate IsRadixDigit(c: char, radix: nat) {
    RadixDigitValue(c) < radix
  }

  /** The value of a run of digits in base `radix`, most significant first. */
  function DigitsValue(s: string, radix: nat): nat
  {
    if s == [] then 0
    else DigitsValue(s[..|s| - 1], radix) * radix + RadixDigitValue(s[|s| - 1])
  }

  /** The longest prefix of `s` made of base-`radix` digits. */
  function DigitRun(s: string, radix: nat): (r: string)
    ensures IsPrefix(r, s)
    ensures forall i | 0 <= i < |r| :: IsRadixDigit(r[i], radix)
    ensures |r| < |s| ==> !IsRadixDigit(s[|r|], radix)
  {
    if s == [] || !IsRadixDigit(s[0], radix) then []
    else [s[0]] + DigitRun(s[1..], radix)
  }

  /** The decimal text of a non-negative integer, as `toString()` writes it. */
  function NatToString(n: nat): (s: string)
    ensures |s| >= 1
    ensures forall i | 0 <= i < |s| :: IsDigit(s[i])
    ensures s[0] == '0' <==> n == 0
    ensures n == 0 ==> s == "0"
  {
    if n < 10 then [DigitChar(n)] else NatToString(n / 10) + [DigitChar(n % 10)]
  }

  /** `toString()` of an integer: a minus sign before a negative one. */
  function IntToString(i: int): (s: string)
  {
    if i < 0 then "-" + NatToString(-i) else NatToString(i)
  }

  /** The digits after the sign: a `0x`/`0X` prefix selects base 16,
      otherwise base 10, and the longest run of digits is read. `None` when
      the run is empty. */
  function ParseMagnitude(body: string): (r: Option<nat>)
  {
    var hex := |body| >= 2 && body[0] == '0' && (body[1] == 'x' || body[1] == 'X');
    var radix := if hex then 16 else 10;
    var run := DigitRun(if hex then body[2..] else body, radix);
    if run == [] then None else Some(DigitsValue(run, radix))
  }

  /** The global `parseInt(s)` with no radix: skip leading whitespace, take
      one optional sign, then read the magnitude. `None` stands for `NaN`. */
  function ParseInt(s: string): (r: Option<int>)
  {
    var t := TrimStart(s);
    var negative := |t| > 0 && t[0] == '-';
    var body := if |t| > 0 && (t[0] == '-' || t[0] == '+') then t[1..] else t;
    match ParseMagnitude(body)
    case None => None
    case Some(magnitude) =>
      Some(if negative then -(magnitude as int) else magnitude as int)
  }

  lemma {:induction false} NatToStringValue(n: nat)
    ensures DigitsValue(NatToString(n), 10) == n
    decreases n
  {
    if n >= 10 {
      var prefix := NatToString(n / 10);
      var s := NatToString(n);
      NatToStringValue(n / 10);
      assert s[..|s| - 1] == prefix;
    }
  }

  lemma {:induction false} DigitRunOfDigits(s: string)
    requires forall i | 0 <= i < |s| :: IsDigit(s[i])
    ensures DigitRun(s, 10) == s
  {
    if s != [] {
      DigitRunOfDigits(s[1..]);
      assert [s[0]] + s[1..] == s;
    }
  }

  /** A run of decimal digits with no leading zero is read in base 10. */
  lemma ParseDecimalDigits(digits: string)
    requires |digits| >= 1 && forall i | 0 <= i < |digits| :: IsDigit(digits[i])
    requires |digits| >= 2 ==> digits[0] != '0'
    ensures ParseMagnitude(digits) == Some(DigitsValue(digits, 10))
  {
    DigitRunOfDigits(digits);
  }

  /** `parseInt` reads back the text `toString()` wrote for any non-negative integer. */
  lemma ParseNatToString(n: nat)
    ensures ParseInt(NatToString(n)) == Some(n)
  {
    var s := NatToString(n);
    assert !IsSpace(s[0]);
    assert TrimStart(s) == s;
    ParseDecimalDigits(s);
    NatToStringValue(n);
  }

  /** A minus sign followed by such a run is read as the run negated. */
  lemma ParseNegatedDigits(s: string)
    requires |s| >= 2 && s[0] == '-'
    requires forall i | 1 <= i < |s| :: IsDigit(s[i])
    requires |s| >= 3 ==> s[1] != '0'
    ensures ParseInt(s) == Some(-(DigitsValue(s[1..], 10) as int))
  {
    assert !IsSpace('-');
    assert TrimStart(s) == s;
    ParseDecimalDigits(s[1..]);
  }

  /** `parseInt` reads back the text `toString()` wrote for a negative integer. */
  lemma ParseNegativeToString(n: nat)
    requires n > 0
    ensures ParseInt("-" + NatToString(n)) == Some(-(n as int))
  {
    var s := "-" + NatToString(n);
    assert s[1..] == NatToString(n);
    ParseNegatedDigits(s);
    NatToStringValue(n);
  }

  /** `parseInt` reads back the text `toString()` wrote for any integer, sign included. */
  lemma ParseIntToString(i: int)
    ensures ParseInt(IntToString(i)) == Some(i)
  {
    if i < 0 {
      ParseNegativeToString(-i);
    } else {
      ParseNatToString(i);
    }
  }

  /** `Math.round`: the integer nearest to `x`, halves rounded up. */
  function Round(x: real): (r: int)
    ensures x - 0.5 < r as real <= x + 0.5
  {
    (x + 0.5).Floor
  }
}
