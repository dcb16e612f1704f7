/**
 * JavaScript's `parseInt` and the rendering of whole numbers by `toString`, for the integer
 * values the program produces (colour channels, counters, a query limit).
 */
module JsNumbers {
  import opened Wrappers
  import opened Strings

  /** The digits of `n` in base `b`, most significant first, without leading zeros. */
  function ToDigits(n: nat, b: nat): (ds: seq<nat>)
    requires b == 10 || b == 16
    ensures |ds| >= 1
    ensures forall i :: 0 <= i < |ds| ==> ds[i] < b
    decreases n
  {
    if n < b then [n] else ToDigits(n / b, b) + [n % b]
  }

  /** The value of a digit sequence in base `b`, most significant first. */
  function FromDigits(ds: seq<nat>, b: nat): nat
    decreases |ds|
  {
    if |ds| == 0 then 0 else FromDigits(ds[..|ds| - 1], b) * b + ds[|ds| - 1]
  }

  /** Reading back the digits of a number gives the number. */
  lemma {:induction false} FromToDigits(n: nat, b: nat)
    requires b == 10 || b == 16
    ensures FromDigits(ToDigits(n, b), b) == n
    decreases n
  {
    if n >= b {
      FromToDigits(n / b, b);
      var ds := ToDigits(n, b);
      assert ds[..|ds| - 1] == ToDigits(n / b, b);
    }
  }

  /** The lowercase character `toString` writes for a digit below 16. */
  function DigitChar(d: nat): char
    requires d < 16
  {
    "0123456789abcdef"[d]
  }

  /** The value of a character as a hexadecimal digit (either case), if it is one. */
  function HexDigit(c: char): (r: Option<nat>)
    ensures r.Some? ==> r.value < 16
    ensures r.Some? && r.value < 10 <==> '0' <= c <= '9'
  {
    if '0' <= c <= '9' then Some(c as int - '0' as int)
    else if 'a' <= c <= 'f' then Some(c as int - 'a' as int + 10)
    else if 'A' <= c <= 'F' then Some(c as int - 'A' as int + 10)
    else None
  }

  /** The value of `c` as a digit of radix `r`, if it is one. */
  function DigitIn(c: char, r: nat): (d: Option<nat>)
    ensures d.Some? ==> d.value < r
  {
    match HexDigit(c)
    case Some(v) => if v < r then Some(v) else None
    case None => None
  }

  lemma DigitCharRoundTrip(d: nat)
    requires d < 16
    ensures HexDigit(DigitChar(d)) == Some(d)
  {
  }

  /** A lowercase hexadecimal digit character. */
  predicate IsLowerHexDigit(c: char) {
    '0' <= c <= '9' || 'a' <= c <= 'f'
  }

  /** Renders digits below 16 as characters. */
  function DigitString(ds: seq<nat>): (s: string)
    requires forall i :: 0 <= i < |ds| ==> ds[i] < 16
    ensures |s| == |ds|
    ensures forall i :: 0 <= i < |s| ==> IsLowerHexDigit(s[i]) && HexDigit(s[i]) == Some(ds[i])
  {
    seq(|ds|, i requires 0 <= i < |ds| && forall i :: 0 <= i < |ds| ==> ds[i] < 16 => DigitChar(ds[i]))
  }

  /** `n.toString(16)` for a whole number. */
  function ToHex(n: nat): (s: string)
    ensures |s| >= 1
    ensures forall i :: 0 <= i < |s| ==> IsLowerHexDigit(s[i])
  {
    DigitString(ToDigits(n, 16))
  }

  /** `n.toString()` for a whole number. */
  function NatToString(n: nat): (s: string)
    ensures |s| >= 1
    ensures forall i :: 0 <= i < |s| ==> '0' <= s[i] <= '9'
  {
    var ds := ToDigits(n, 10);
    DigitString(ds)
  }

  /** `n.toString()` for an integer: a minus sign before the digits of a negative number. */
  function IntToString(n: int): string {
    if n < 0 then "-" + NatToString(-n) else NatToString(n)
  }

  /** The number of leading characters of `s` that are digits of radix `r`. */
  function DigitPrefixLength(s: string, r: nat): (k: nat)
    ensures k <= |s|
    ensures forall i :: 0 <= i < k ==> DigitIn(s[i], r).Some?
    ensures k < |s| ==> DigitIn(s[k], r).None?
  {
    if |s| == 0 || DigitIn(s[0], r).None? then 0 else 1 + DigitPrefixLength(s[1..], r)
  }

  /** The digit values of a string made of digits of radix `r`. */
  function DigitValues(s: string, r: nat): (ds: seq<nat>)
    requires forall i :: 0 <= i < |s| ==> DigitIn(s[i], r).Some?
    ensures |ds| == |s|
    ensures forall i :: 0 <= i < |s| ==> DigitIn(s[i], r) == Some(ds[i])
  {
    seq(|s|, i requires 0 <= i < |s| && forall i :: 0 <= i < |s| ==> DigitIn(s[i], r).Some? =>
      DigitIn(s[i], r).value)
  }

  /** Leading whitespace removed, as `parseInt` first does. */
  function TrimStart(s: string): (t: string)
    ensures |t| <= |s| && t == s[|s| - |t|..]
    ensures |t| > 0 ==> !IsSpace(t[0])
    ensures forall i :: 0 <= i < |s| - |t| ==> IsSpace(s[i])
  {
    if |s| > 0 && IsSpace(s[0]) then TrimStart(s[1..]) else s
  }

  /**
   * `parseInt(s, radix)` as ECMAScript defines it, for a radix that is absent (0 here) or 16:
   * leading whitespace, an optional sign, an optional `0x`/`0X` prefix, then the longest run of
   * digits. None stands for NaN, the result when no digit follows.
   */
  function ParseInt(s: string, radix: nat): (r: Option<int>)
    requires radix == 0 || radix == 16
  {
    var t := TrimStart(s);
    var negative := |t| > 0 && t[0] == '-';
    var u := if |t| > 0 && (t[0] == '-' || t[0] == '+') then t[1..] else t;
    var prefixed := HasHexPrefix(u);
    var v := if prefixed then u[2..] else u;
    match LeadingValue(v, if radix == 16 || prefixed then 16 else 10)
    case None => None
    case Some(m) =>
      var x: int := if negative then -(m as int) else m;
      Some(x)
  }

  /** `0x` or `0X` at the start. */
  predicate HasHexPrefix(u: string) {
    |u| >= 2 && u[0] == '0' && (u[1] == 'x' || u[1] == 'X')
  }

  /** The value of the longest run of radix-`b` digits at the start of `v`; None when there is none. */
  function LeadingValue(v: string, b: nat): (r: Option<nat>)
    requires b == 10 || b == 16
    ensures r.None? <==> DigitPrefixLength(v, b) == 0
  {
    var k := DigitPrefixLength(v, b);
    if k == 0 then None
    else
      var w := v[..k];
      assert forall i :: 0 <= i < |w| ==> DigitIn(w[i], b).Some?;
      Some(FromDigits(DigitValues(w, b), b))
  }

  /** `parseInt` reads a plain run of digits in full. */
  lemma ParseDigitRun(s: string, radix: nat, ds: seq<nat>)
    requires radix == 0 || radix == 16
    requires |s| >= 1 && |s| == |ds|
    requires forall i :: 0 <= i < |s| ==> ds[i] < (if radix == 16 then 16 else 10) && HexDigit(s[i]) == Some(ds[i])
    requires !HasHexPrefix(s)
    ensures ParseInt(s, radix) == Some(FromDigits(ds, if radix == 16 then 16 else 10))
  {
    var b := if radix == 16 then 16 else 10;
    assert !IsSpace(s[0]) by { assert HexDigit(s[0]).Some?; }
    assert TrimStart(s) == s;
    assert s[0] != '-' && s[0] != '+' by { assert HexDigit(s[0]).Some?; }
    assert forall i :: 0 <= i < |s| ==> DigitIn(s[i], b) == Some(ds[i]);
    AllDigitsPrefix(s, b);
    assert s[..|s|] == s;
    assert DigitValues(s, b) == ds;
    assert LeadingValue(s, b) == Some(FromDigits(ds, b));
  }

  /** `parseInt` reads back what `toString(16)` writes. */
  lemma ParseHexOfToHex(n: nat)
    ensures ParseInt(ToHex(n), 16) == Some(n)
  {
    var ds := ToDigits(n, 16);
    var s := ToHex(n);
    assert s == DigitString(ds);
    assert |s| >= 2 ==> IsLowerHexDigit(s[1]);
    ParseDigitRun(s, 16, ds);
    FromToDigits(n, 16);
  }

  /** `parseInt` reads back what `toString()` writes. */
  lemma ParseDecimalOfToString(n: nat)
    ensures ParseInt(NatToString(n), 0) == Some(n)
  {
    var ds := ToDigits(n, 10);
    var s := NatToString(n);
    assert s == DigitString(ds);
    assert |s| >= 2 ==> '0' <= s[1] <= '9';
    ParseDigitRun(s, 0, ds);
    FromToDigits(n, 10);
  }

  lemma {:induction false} AllDigitsPrefix(s: string, b: nat)
    requires forall i :: 0 <= i < |s| ==> DigitIn(s[i], b).Some?
    ensures DigitPrefixLength(s, b) == |s|
  {
    if |s| > 0 {
      AllDigitsPrefix(s[1..], b);
    }
  }
}
