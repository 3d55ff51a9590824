/**
 * Field coercion: the total text-to-number helpers of the reader.
 *
 * Numbers are exact reals. The accepted grammar is the part of Python's
 * `int()` / `float()` grammar that fixed-column network files use: an
 * optional sign, decimal digits and (for floats) one optional decimal point.
 */
module Coerce {
  import opened Common

  // ---------------------------------------------------------------------
  // Whitespace and Python's str.strip()
  // ---------------------------------------------------------------------

  /** The ASCII characters that `str.strip()` removes. */
  predicate IsSpace(c: char) {
    var n := c as int;
    n == 32 || 9 <= n <= 13 || 28 <= n <= 31
  }

  predicate AllSpace(s: string) {
    forall i :: 0 <= i < |s| ==> IsSpace(s[i])
  }

  function TrimLeft(s: string): (r: string)
    ensures |r| <= |s|
    ensures r == [] || !IsSpace(r[0])
    decreases |s|
  {
    if s != [] && IsSpace(s[0]) then TrimLeft(s[1..]) else s
  }

  function TrimRight(s: string): (r: string)
    ensures |r| <= |s| && r == s[..|r|]
    ensures r == [] || !IsSpace(r[|r| - 1])
    decreases |s|
  {
    if s != [] && IsSpace(s[|s| - 1]) then TrimRight(s[..|s| - 1]) else s
  }

  /** Python's `s.strip()`: no leading or trailing whitespace is left. */
  function Strip(s: string): (r: string)
    ensures |r| <= |s|
    ensures r == [] || (!IsSpace(r[0]) && !IsSpace(r[|r| - 1]))
  {
    TrimRight(TrimLeft(s))
  }

  lemma {:induction false} TrimLeftSpaces(p: string, t: string)
    requires AllSpace(p)
    ensures TrimLeft(p + t) == TrimLeft(t)
    decreases |p|
  {
    if p != [] {
      assert (p + t)[1..] == p[1..] + t;
      TrimLeftSpaces(p[1..], t);
    } else {
      assert p + t == t;
    }
  }

  lemma {:induction false} TrimRightSpaces(t: string, q: string)
    requires AllSpace(q)
    ensures TrimRight(t + q) == TrimRight(t)
    decreases |q|
  {
    if q != [] {
      assert (t + q)[..|t + q| - 1] == t + q[..|q| - 1];
      TrimRightSpaces(t, q[..|q| - 1]);
    } else {
      assert t + q == t;
    }
  }

  lemma {:induction false} TrimLeftAppend(s: string, q: string)
    ensures AllSpace(s) ==> TrimLeft(s + q) == TrimLeft(q)
    ensures !AllSpace(s) ==> TrimLeft(s + q) == TrimLeft(s) + q
    decreases |s|
  {
    if s == [] {
      assert s + q == q;
    } else {
      assert (s + q)[1..] == s[1..] + q;
      TrimLeftAppend(s[1..], q);
    }
  }

  /** Surrounding whitespace never changes what `strip()` leaves. */
  lemma {:induction false} StripPadding(p: string, s: string, q: string)
    requires AllSpace(p) && AllSpace(q)
    ensures Strip(p + s + q) == Strip(s)
  {
    assert p + s + q == p + (s + q);
    TrimLeftSpaces(p, s + q);
    TrimLeftAppend(s, q);
    if AllSpace(s) {
      TrimLeftAppend(s, "");
      assert s + "" == s;
      assert TrimLeft(q) == [] by { TrimLeftAppend(q, ""); assert q + "" == q; }
    } else {
      TrimRightSpaces(TrimLeft(s), q);
    }
  }

  /** Text with no whitespace at either end is its own `strip()`. */
  lemma StripTight(t: string)
    requires t == [] || (!IsSpace(t[0]) && !IsSpace(t[|t| - 1]))
    ensures Strip(t) == t
  {
  }

  // ---------------------------------------------------------------------
  // Digits, decimal literals and Python's str(int)
  // ---------------------------------------------------------------------

  predicate IsDigit(c: char) { '0' <= c <= '9' }

  predicate AllDigits(s: string) {
    forall i :: 0 <= i < |s| ==> IsDigit(s[i])
  }

  function DigitsValue(s: string): nat
    requires AllDigits(s)
    decreases |s|
  {
    if s == [] then 0
    else DigitsValue(s[..|s| - 1]) * 10 + (s[|s| - 1] as int - '0' as int)
  }

  /** `x` with its decimal point moved `places` digits to the left: `x / 10^places`. */
  function ShiftLeft(x: real, places: nat): real {
    if places == 0 then x else ShiftLeft(x, places - 1) / 10.0
  }

  /** The decimal digits of `n`, most significant first (Python's `str(n)`). */
  function NatDigits(n: nat): (s: string)
    ensures |s| > 0
    decreases n
  {
    if n < 10 then [('0' as int + n) as char]
    else NatDigits(n / 10) + [('0' as int + n % 10) as char]
  }

  /** The digits of `n` are decimal digits, and they read back as `n`. */
  lemma {:induction false} NatDigitsValue(n: nat)
    ensures AllDigits(NatDigits(n)) && DigitsValue(NatDigits(n)) == n
    decreases n
  {
    if n >= 10 {
      NatDigitsValue(n / 10);
      var s := NatDigits(n);
      assert s[..|s| - 1] == NatDigits(n / 10);
    }
  }

  /** Python's `str(n)` for an integer. */
  function IntToString(n: int): (s: string)
    ensures |s| > 0
  {
    if n < 0 then "-" + NatDigits(-n) else NatDigits(n)
  }

  /** `str(n)` has no whitespace at either end: a sign or a digit first, a digit last. */
  lemma IntToStringTight(n: int)
    ensures var s := IntToString(n); !IsSpace(s[0]) && !IsSpace(s[|s| - 1])
  {
    NatDigitsValue(if n < 0 then -n else n);
  }

  predicate IsSign(c: char) { c == '+' || c == '-' }

  function Signed(sign: char, v: int): int {
    if sign == '-' then -v else v
  }

  /** Python's `int(t)` on already stripped text: `None` where it raises. */
  function ParseInt(t: string): Option<int> {
    if |t| > 0 && IsSign(t[0]) then
      (if |t| > 1 && AllDigits(t[1..]) then Some(Signed(t[0], DigitsValue(t[1..]))) else None)
    else if |t| > 0 && AllDigits(t) then Some(DigitsValue(t))
    else None
  }

  /** Python's `str.find(c)`: the first index of `c`, or -1. */
  function Find(s: string, c: char): (r: int)
    ensures -1 <= r < |s|
    ensures r == -1 <==> c !in s
    ensures r >= 0 ==> s[r] == c && c !in s[..r]
  {
    if s == [] then -1
    else if s[0] == c then 0
    else
      var k := Find(s[1..], c);
      assert s == [s[0]] + s[1..];
      if k == -1 then -1 else k + 1
  }

  /** An unsigned decimal `digits[.digits]` with at least one digit. */
  function ParseUnsigned(t: string): Option<real> {
    var d := Find(t, '.');
    if d == -1 then
      (if |t| > 0 && AllDigits(t) then Some(DigitsValue(t) as real) else None)
    else
      var whole, frac := t[..d], t[d + 1..];
      if |t| > 1 && AllDigits(whole) && AllDigits(frac) then
        Some(ShiftLeft(DigitsValue(whole + frac) as real, |frac|))
      else None
  }

  /** Python's `float(t)` on already stripped text: `None` where it raises. */
  function ParseFloat(t: string): Option<real> {
    if |t| > 0 && IsSign(t[0]) then
      match ParseUnsigned(t[1..])
      case Some(v) => Some(if t[0] == '-' then -v else v)
      case None => None
    else ParseUnsigned(t)
  }

  // ---------------------------------------------------------------------
  // The three coercions
  // ---------------------------------------------------------------------

  /** `try_int`: never raises; 0 for blank or non-integer text. */
  function TryInt(s: string): (r: int)
    ensures Strip(s) == [] ==> r == 0
    ensures ParseInt(Strip(s)).None? ==> r == 0
    ensures ParseInt(Strip(s)).Some? ==> r == ParseInt(Strip(s)).value
  {
    match ParseInt(Strip(s))
    case Some(n) => n
    case None => 0
  }

  /** `try_float`: never raises; 0.0 for blank or unparsable text. */
  function TryFloat(s: string): (r: real)
    ensures Strip(s) == [] ==> r == 0.0
    ensures ParseFloat(Strip(s)).None? ==> r == 0.0
    ensures ParseFloat(Strip(s)).Some? ==> r == ParseFloat(Strip(s)).value
  {
    match ParseFloat(Strip(s))
    case Some(v) => v
    case None => 0.0
  }

  /**
   * `try_anafas_float`: like `try_float`, but a field written without a
   * decimal point carries two implied decimals.
   */
  function TryAnafasFloat(s: string): (r: real)
    ensures Find(s, '.') != -1 ==> r == TryFloat(s)
    ensures Find(s, '.') == -1 ==> r == TryFloat(s) / 100.0
    ensures ParseFloat(Strip(s)).None? ==> r == 0.0
  {
    match ParseFloat(Strip(s))
    case Some(v) => if Find(s, '.') == -1 then v / 100.0 else v
    case None => 0.0
  }

  // ---------------------------------------------------------------------
  // Properties
  // ---------------------------------------------------------------------

  /** Padding a field with whitespace on either side does not change `try_int`. */
  lemma {:induction false} TryIntIgnoresPadding(p: string, s: string, q: string)
    requires AllSpace(p) && AllSpace(q)
    ensures TryInt(p + s + q) == TryInt(s)
  {
    StripPadding(p, s, q);
  }

  /** Padding a field with whitespace on either side does not change `try_float`. */
  lemma {:induction false} TryFloatIgnoresPadding(p: string, s: string, q: string)
    requires AllSpace(p) && AllSpace(q)
    ensures TryFloat(p + s + q) == TryFloat(s)
  {
    StripPadding(p, s, q);
  }

  lemma DigitsNoSign(s: string)
    requires |s| > 0 && AllDigits(s)
    ensures !IsSign(s[0]) && Find(s, '.') == -1
  {
  }

  /** `try_int` reads back every integer that `str()` writes. */
  lemma {:induction false} TryIntRoundTrip(n: int)
    ensures TryInt(IntToString(n)) == n
  {
    var s := IntToString(n);
    IntToStringTight(n);
    StripTight(s);
    NatDigitsValue(if n < 0 then -n else n);
    if n < 0 {
      assert s[1..] == NatDigits(-n);
    } else {
      DigitsNoSign(s);
    }
  }

  /** `try_float` reads an integer written by `str()` as the same number. */
  lemma {:induction false} TryFloatOfInteger(n: int)
    ensures TryFloat(IntToString(n)) == n as real
  {
    var s := IntToString(n);
    IntToStringTight(n);
    StripTight(s);
    NatDigitsValue(if n < 0 then -n else n);
    if n < 0 {
      assert s[1..] == NatDigits(-n);
      DigitsNoSign(s[1..]);
    } else {
      DigitsNoSign(s);
    }
  }

  /** `float()` of a run of digits is its decimal value. */
  lemma DigitsFloat(t: string)
    requires |t| > 0 && AllDigits(t)
    ensures Find(t, '.') == -1 && ParseFloat(Strip(t)) == Some(DigitsValue(t) as real)
  {
    StripTight(t);
    DigitsNoSign(t);
  }

  /** `float()` of `whole.frac` is the digits of both parts read as one number, scaled down by `frac`'s length. */
  lemma DottedFloat(whole: string, frac: string)
    requires AllDigits(whole) && AllDigits(frac) && |whole| + |frac| > 0
    ensures Find(whole + "." + frac, '.') == |whole|
    ensures ParseFloat(Strip(whole + "." + frac)) == Some(ShiftLeft(DigitsValue(whole + frac) as real, |frac|))
  {
    var dotted := whole + "." + frac;
    assert Find(dotted, '.') == |whole| by {
      assert '.' !in whole;
      assert dotted[..|whole|] == whole;
      assert dotted[|whole|] == '.';
    }
    assert !IsSpace(dotted[0]) && !IsSpace(dotted[|dotted| - 1]);
    StripTight(dotted);
    assert dotted[..|whole|] == whole && dotted[|whole| + 1..] == frac;
    assert !IsSign(dotted[0]);
  }

  /**
   * The implied-decimals rule: a digit field without a point reads as the
   * same value as the field with a point inserted before its last two digits.
   */
  lemma {:induction false} AnafasImpliedDecimals(whole: string, frac: string)
    requires AllDigits(whole) && AllDigits(frac) && |frac| == 2
    ensures TryAnafasFloat(whole + frac) == DigitsValue(whole + frac) as real / 100.0
    ensures TryAnafasFloat(whole + "." + frac) == DigitsValue(whole + frac) as real / 100.0
  {
    var t := whole + frac;
    assert AllDigits(t) by {
      forall i | 0 <= i < |t|
        ensures IsDigit(t[i])
      {
        if i < |whole| {
          assert t[i] == whole[i];
        } else {
          assert t[i] == frac[i - |whole|];
        }
      }
    }
    UndottedAnafas(t);
    DottedTwoPlaces(whole, frac);
  }

  /** With exactly two digits after the point, the scale is a hundredth. */
  lemma DottedTwoPlaces(whole: string, frac: string)
    requires AllDigits(whole) && AllDigits(frac) && |frac| == 2
    ensures TryAnafasFloat(whole + "." + frac) == DigitsValue(whole + frac) as real / 100.0
  {
    DottedAnafas(whole, frac);
    HundredthScale(DigitsValue(whole + frac) as real, |frac|);
  }

  /** Scaling down by two decimal places is dividing by a hundred. */
  lemma HundredthScale(x: real, n: nat)
    requires n == 2
    ensures ShiftLeft(x, n) == x / 100.0
  {
    assert ShiftLeft(x, 1) == x / 10.0;
  }

  /** A digit field without a point carries two implied decimals. */
  lemma UndottedAnafas(t: string)
    requires |t| > 0 && AllDigits(t)
    ensures TryAnafasFloat(t) == DigitsValue(t) as real / 100.0
  {
    DigitsFloat(t);
  }

  /** A field with a point reads as written. */
  lemma DottedAnafas(whole: string, frac: string)
    requires AllDigits(whole) && AllDigits(frac) && |whole| + |frac| > 0
    ensures TryAnafasFloat(whole + "." + frac) == ShiftLeft(DigitsValue(whole + frac) as real, |frac|)
  {
    DottedFloat(whole, frac);
  }
}
