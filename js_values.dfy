/**
 * The JavaScript values that reach the task route's request handling, and
 * the three JavaScript operations its normalisation applies to them:
 * truthiness (`x || null`, `x ? … : …`), `String(x)` and `parseInt(x)`.
 * Numbers are integers here; `NaN` is kept as a value of its own because
 * `parseInt` can produce it.
 */
module JsValues {
  import opened Wrappers
  import opened Strings

  datatype JsValue =
    | Undefined
    | Null
    | Bool(b: bool)
    | Num(n: int)
    | NaN
    | Str(s: string)
    | Arr(elems: seq<JsValue>)
    | Obj

  /** JavaScript truthiness: `undefined`, `null`, `false`, `0`, `NaN` and `""` are falsy. */
  predicate Truthy(v: JsValue)
  {
    match v
    case Undefined => false
    case Null => false
    case Bool(b) => b
    case Num(n) => n != 0
    case NaN => false
    case Str(s) => s != ""
    case Arr(_) => true
    case Obj => true
  }

  /** The decimal digit for `d`. */
  function DigitChar(d: nat): (c: char)
    requires d < 10
    ensures '0' <= c <= '9'
  {
    ('0' as int + d) as char
  }

  /** The decimal rendering of a natural number, as `String(n)` gives it. */
  function NatToString(n: nat): (s: string)
    ensures |s| >= 1
    ensures forall i :: 0 <= i < |s| ==> '0' <= s[i] <= '9'
    decreases n
  {
    if n < 10 then [DigitChar(n)] else NatToString(n / 10) + [DigitChar(n % 10)]
  }

  /** `String(n)` for an integer `n`. */
  function IntToString(n: int): string
  {
    if n < 0 then "-" + NatToString(-n) else NatToString(n)
  }

  /**
   * `String(v)`: the string `parseInt` converts its argument to first. An
   * array is its elements' strings joined with ",", where `null` and
   * `undefined` elements give "".
   */
  function ToStr(v: JsValue): string
    decreases v
  {
    match v
    case Undefined => "undefined"
    case Null => "null"
    case Bool(b) => if b then "true" else "false"
    case Num(n) => IntToString(n)
    case NaN => "NaN"
    case Str(s) => s
    case Arr(es) =>
      Join(seq(|es|, i requires 0 <= i < |es| =>
        if es[i].Undefined? || es[i].Null? then "" else ToStr(es[i])), ",")
    case Obj => "[object Object]"
  }

  /** The white-space characters `parseInt` skips before the number. */
  predicate IsSpace(c: char)
  {
    c == ' ' || c == '\t' || c == '\n' || c == '\r' || c == '\U{B}' || c == '\U{C}'
    || c == '\U{A0}' || c == '\U{FEFF}' || c == '\U{2028}' || c == '\U{2029}'
  }

  /** `s` without its leading white space. */
  function TrimStart(s: string): (r: string)
    ensures r == [] || !IsSpace(r[0])
  {
    if s != [] && IsSpace(s[0]) then TrimStart(s[1..]) else s
  }

  /** The value of `c` as a digit in bases up to 36 (`0`–`9`, then letters of either case), or 36 when it is none. */
  function DigitValue(c: char): (d: nat)
    ensures d <= 36
  {
    if '0' <= c <= '9' then c as int - '0' as int
    else if 'a' <= c <= 'z' then c as int - 'a' as int + 10
    else if 'A' <= c <= 'Z' then c as int - 'A' as int + 10
    else 36
  }

  predicate IsDigit(c: char, radix: nat)
  {
    DigitValue(c) < radix
  }

  /** The length of the longest prefix of `s` made of digits in `radix`. */
  function DigitPrefix(s: string, radix: nat): (k: nat)
    ensures k <= |s|
    ensures forall i :: 0 <= i < k ==> IsDigit(s[i], radix)
    ensures k < |s| ==> !IsDigit(s[k], radix)
  {
    if s != [] && IsDigit(s[0], radix) then 1 + DigitPrefix(s[1..], radix) else 0
  }

  /** The number written by the digit string `ds` in `radix`. */
  function DigitsValue(ds: string, radix: nat): nat
    requires AllDigits(ds, radix)
  {
    if ds == [] then 0
    else DigitsValue(ds[..|ds| - 1], radix) * radix + DigitValue(ds[|ds| - 1])
  }

  /** `s` begins with a hexadecimal prefix `0x` or `0X`. */
  predicate HasHexPrefix(s: string)
  {
    |s| >= 2 && s[0] == '0' && (s[1] == 'x' || s[1] == 'X')
  }

  /**
   * `parseInt(s)` with no radix: skip leading white space, read an optional
   * sign, then read the magnitude; `None` is `NaN`.
   */
  function ParseIntString(s: string): (r: Option<int>)
  {
    ParseSigned(TrimStart(s))
  }

  /** `parseInt` after the white space: an optional sign, then the magnitude. */
  function ParseSigned(t: string): (r: Option<int>)
  {
    var negative := t != [] && t[0] == '-';
    var unsigned := if t != [] && (t[0] == '-' || t[0] == '+') then t[1..] else t;
    match ParseMagnitude(unsigned)
    case None => None
    case Some(m) => Some(if negative then -(m as int) else m as int)
  }

  /**
   * The magnitude part of `parseInt`: base 16 after a `0x`/`0X` prefix, base
   * 10 otherwise, then the longest run of digits; `None` when that run is empty.
   */
  function ParseMagnitude(u: string): (r: Option<nat>)
    ensures r.None? <==> DigitPrefix(if HasHexPrefix(u) then u[2..] else u, if HasHexPrefix(u) then 16 else 10) == 0
  {
    var radix := if HasHexPrefix(u) then 16 else 10;
    var body := if HasHexPrefix(u) then u[2..] else u;
    var k := DigitPrefix(body, radix);
    if k == 0 then None else Some(DigitsValue(body[..k], radix))
  }

  /** `parseInt(v)`: the argument is first converted to a string. */
  function ParseInt(v: JsValue): Option<int>
  {
    ParseIntString(ToStr(v))
  }

  /** Reading back a decimal rendering gives the number. */
  lemma {:induction false} NatToStringValue(n: nat)
    ensures DigitsValue(NatToString(n), 10) == n
    decreases n
  {
    var s := NatToString(n);
    if n >= 10 {
      NatToStringValue(n / 10);
      assert s[..|s| - 1] == NatToString(n / 10);
    }
  }

  /** A run made only of digits is its own longest digit prefix. */
  lemma {:induction false} AllDigitsPrefix(s: string, radix: nat)
    requires forall i :: 0 <= i < |s| ==> IsDigit(s[i], radix)
    ensures DigitPrefix(s, radix) == |s|
    decreases |s|
  {
    if s != [] {
      AllDigitsPrefix(s[1..], radix);
    }
  }

  /** The magnitude of a decimal rendering is the number rendered. */
  lemma MagnitudeOfRendering(m: nat)
    ensures ParseMagnitude(NatToString(m)) == Some(m)
  {
    var digits := NatToString(m);
    assert !HasHexPrefix(digits) by {
      if |digits| >= 2 { assert '0' <= digits[1] <= '9'; }
    }
    AllDigitsPrefix(digits, 10);
    assert digits[..|digits|] == digits;
    NatToStringValue(m);
  }

  /** A string whose first character is not white space has no leading white space to skip. */
  lemma NoLeadingSpace(s: string)
    requires s != [] && !IsSpace(s[0])
    ensures TrimStart(s) == s
  {
    assert !IsSpace(s[0]);
  }

  /** `parseInt(String(n)) == n` for every integer `n`. */
  lemma IntToStringRoundTrip(n: int)
    ensures ParseIntString(IntToString(n)) == Some(n)
  {
    if n < 0 {
      NegativeRoundTrip(-n);
    } else {
      NonNegativeRoundTrip(n);
    }
  }

  lemma NegativeRoundTrip(m: nat)
    ensures ParseIntString("-" + NatToString(m)) == Some(-(m as int))
  {
    var s := "-" + NatToString(m);
    NoLeadingSpace(s);
    assert s[1..] == NatToString(m);
    MagnitudeOfRendering(m);
  }

  lemma NonNegativeRoundTrip(m: nat)
    ensures ParseIntString(NatToString(m)) == Some(m)
  {
    var s := NatToString(m);
    assert '0' <= s[0] <= '9';
    NoLeadingSpace(s);
    MagnitudeOfRendering(m);
  }

  /** A number given to `parseInt` comes back unchanged. */
  lemma ParseIntNumber(n: int)
    ensures ParseInt(Num(n)) == Some(n)
  {
    IntToStringRoundTrip(n);
  }

  /** Every character of `w` is white space that `parseInt` skips. */
  predicate AllSpace(w: string)
  {
    forall i :: 0 <= i < |w| ==> IsSpace(w[i])
  }

  /** Every character of `d` is a digit in `radix`. */
  predicate AllDigits(d: string, radix: nat)
  {
    forall i :: 0 <= i < |d| ==> IsDigit(d[i], radix)
  }

  /** The signs `parseInt` reads: none, `+` or `-`. */
  predicate IsSign(sign: string)
  {
    sign == "" || sign == "+" || sign == "-"
  }

  /** `m` with the sign `sign` applied. */
  function Signed(sign: string, m: nat): int
  {
    if sign == "-" then -(m as int) else m
  }

  /** Leading white space is skipped up to the first other character. */
  lemma {:induction false} SkipSpaces(w: string, t: string)
    requires AllSpace(w)
    requires t == [] || !IsSpace(t[0])
    ensures TrimStart(w + t) == t
    decreases |w|
  {
    if w != [] {
      assert (w + t)[0] == w[0];
      assert (w + t)[1..] == w[1..] + t;
      SkipSpaces(w[1..], t);
    } else {
      assert w + t == t;
    }
  }

  /** A digit run followed by a non-digit is read up to the non-digit. */
  lemma {:induction false} DigitRun(d: string, x: string, radix: nat)
    requires AllDigits(d, radix)
    requires x == [] || !IsDigit(x[0], radix)
    ensures DigitPrefix(d + x, radix) == |d|
    decreases |d|
  {
    if d != [] {
      assert (d + x)[0] == d[0];
      assert (d + x)[1..] == d[1..] + x;
      DigitRun(d[1..], x, radix);
    } else {
      assert d + x == x;
    }
  }

  /** After the white space, a sign is read and applied to the magnitude that follows it. */
  lemma SignedMagnitude(sign: string, u: string)
    requires IsSign(sign)
    requires sign != "" || u == [] || (u[0] != '+' && u[0] != '-')
    ensures ParseSigned(sign + u) ==
      if ParseMagnitude(u).None? then None else Some(Signed(sign, ParseMagnitude(u).value))
  {
    if sign == "" {
      assert sign + u == u;
    } else {
      assert (sign + u)[1..] == u;
    }
  }

  /** White space, a sign, a run of digits, then the first character that is not one. */
  lemma SpacedSigned(w: string, sign: string, u: string)
    requires AllSpace(w) && IsSign(sign)
    requires sign + u == [] || !IsSpace((sign + u)[0])
    requires sign != "" || u == [] || (u[0] != '+' && u[0] != '-')
    ensures ParseIntString(w + sign + u) ==
      if ParseMagnitude(u).None? then None else Some(Signed(sign, ParseMagnitude(u).value))
  {
    assert w + sign + u == w + (sign + u);
    SkipSpaces(w, sign + u);
    SignedMagnitude(sign, u);
  }

  /**
   * `parseInt` skips leading white space, reads an optional sign, and reads
   * decimal digits up to the first character that is not one; the rest of
   * the string is ignored.
   */
  lemma ParseIntStopsAtNonDigit(w: string, sign: string, d: string, x: string)
    requires AllSpace(w) && IsSign(sign)
    requires d != [] && AllDigits(d, 10)
    requires x == [] || !IsDigit(x[0], 10)
    requires !HasHexPrefix(d + x)
    ensures ParseIntString(w + sign + (d + x)) == Some(Signed(sign, DigitsValue(d, 10)))
  {
    var u := d + x;
    assert u[0] == d[0];
    assert (sign + u)[0] == if sign == "" then d[0] else sign[0];
    DigitRun(d, x, 10);
    assert u[..|d|] == d;
    SpacedSigned(w, sign, u);
  }

  /**
   * After a `0x` or `0X` prefix `parseInt` reads base 16 up to the first
   * character that is not a hexadecimal digit; with no such digit the result
   * is `NaN`.
   */
  lemma ParseIntHex(w: string, sign: string, prefix: string, h: string, x: string)
    requires AllSpace(w) && IsSign(sign)
    requires prefix == "0x" || prefix == "0X"
    requires AllDigits(h, 16)
    requires x == [] || !IsDigit(x[0], 16)
    ensures ParseIntString(w + sign + (prefix + h + x)) ==
      if h == [] then None else Some(Signed(sign, DigitsValue(h, 16)))
  {
    var u := prefix + h + x;
    assert u[0] == '0' && HasHexPrefix(u);
    assert u[2..] == h + x;
    assert (sign + u)[0] == if sign == "" then '0' else sign[0];
    DigitRun(h, x, 16);
    assert (h + x)[..|h|] == h;
    SpacedSigned(w, sign, u);
  }

  /** `parseInt` is `NaN` when no digit follows the white space and the sign. */
  lemma ParseIntNoDigits(w: string, sign: string, x: string)
    requires AllSpace(w) && IsSign(sign)
    requires x == [] || !IsDigit(x[0], 10)
    requires sign != "" || x == [] || (!IsSpace(x[0]) && x[0] != '+' && x[0] != '-')
    ensures ParseIntString(w + sign + x) == None
  {
    assert !HasHexPrefix(x) by {
      if |x| >= 2 { assert x[0] != '0'; }
    }
    if sign != "" {
      assert (sign + x)[0] == sign[0];
    } else {
      assert sign + x == x;
    }
    SpacedSigned(w, sign, x);
  }

  /** An array is read through its string: `parseInt([7])` is 7, as for the number itself. */
  lemma ParseIntSingletonArray(n: int)
    ensures ParseInt(Arr([Num(n)])) == Some(n)
  {
    var es := [Num(n)];
    var parts := seq(|es|, i requires 0 <= i < |es| =>
      if es[i].Undefined? || es[i].Null? then "" else ToStr(es[i]));
    assert parts == [IntToString(n)];
    IntToStringRoundTrip(n);
  }
}
