/** The slice of JavaScript value semantics the front end relies on: truthiness, NaN-carrying numbers,
    `parseFloat` (ECMAScript section 19.2.4) and the ToInt32 wrap used by `| 0` and `<<`
    (ECMAScript section 7.1.6). */
module JsValues {
  import opened Common

  /** A JavaScript number: a finite value or NaN. */
  datatype Number = Finite(value: real) | NaN

  /** The JavaScript values that reach the core through stored records and form fields. */
  datatype JsValue = Undefined | Null | Bool(b: bool) | Num(n: Number) | Str(s: string)

  /** ECMAScript ToBoolean: the falsy values are undefined, null, false, 0, NaN and "". */
  predicate Truthy(v: JsValue)
  {
    match v
    case Undefined => false
    case Null => false
    case Bool(b) => b
    case Num(n) => n.Finite? && n.value != 0.0
    case Str(s) => s != ""
  }

  /** `a < b` on numbers: false whenever either side is NaN. */
  predicate Less(a: Number, b: Number)
  {
    a.Finite? && b.Finite? && a.value < b.value
  }

  /** `a + b` on numbers: NaN is absorbing. */
  function Plus(a: Number, b: Number): (r: Number)
    ensures r.Finite? <==> a.Finite? && b.Finite?
  {
    if a.Finite? && b.Finite? then Finite(a.value + b.value) else NaN
  }

  /** `x || 0` applied to a number. */
  function OrZero(n: Number): real
  {
    if n.Finite? then n.value else 0.0
  }

  /** `total / n` on numbers: NaN stays NaN. */
  function DivideBy(total: Number, n: nat): (r: Number)
    requires n > 0
    ensures r.Finite? <==> total.Finite?
    ensures r.Finite? ==> r.value * n as real == total.value
  {
    if total.Finite? then Finite(total.value / n as real) else NaN
  }

  predicate AllFinite(ws: seq<Number>)
  {
    forall k :: 0 <= k < |ws| ==> ws[k].Finite?
  }

  /** The values of finite numbers. */
  function Values(ws: seq<Number>): (xs: seq<real>)
    ensures |xs| == |ws|
    ensures forall k :: 0 <= k < |ws| ==> xs[k] == OrZero(ws[k])
  {
    if ws == [] then []
    else
      var p := ws[..|ws| - 1];
      assert forall k :: 0 <= k < |p| ==> p[k] == ws[k];
      Values(p) + [OrZero(ws[|ws| - 1])]
  }

  /** The NaN-carrying total `reduce((sum, w) => sum + w, 0)` or `total += w` from 0: finite
      exactly when every number is, and then the sum of their values. */
  function NumSum(ws: seq<Number>): (r: Number)
    ensures r.Finite? <==> AllFinite(ws)
    ensures AllFinite(ws) ==> r == Finite(Sum(Values(ws)))
  {
    if ws == [] then Finite(0.0)
    else
      var p := ws[..|ws| - 1];
      assert forall k :: 0 <= k < |p| ==> p[k] == ws[k];
      assert AllFinite(ws) <==> AllFinite(p) && ws[|p|].Finite?;
      assert Values(ws) == Values(p) + [OrZero(ws[|p|])];
      SumAppend(Values(p), OrZero(ws[|p|]));
      Plus(NumSum(p), ws[|p|])
  }

  /** `total / n` over numbers that all parse is the mean of their values. */
  lemma NumMean(ws: seq<Number>)
    requires |ws| > 0 && AllFinite(ws)
    ensures DivideBy(NumSum(ws), |ws|) == Finite(Mean(Values(ws)))
  {
  }

  // ---------------------------------------------------------------------------
  // parseFloat
  // ---------------------------------------------------------------------------

  /** StrWhiteSpaceChar: the white space and line terminators `parseFloat` skips. */
  predicate IsJsSpace(c: char)
  {
    c == '\t' || c == '\n' || c == '\U{000B}' || c == '\U{000C}' || c == '\r' || c == ' '
    || c == '\U{00A0}' || c == '\U{1680}' || ('\U{2000}' <= c <= '\U{200A}')
    || c == '\U{2028}' || c == '\U{2029}' || c == '\U{202F}' || c == '\U{205F}'
    || c == '\U{3000}' || c == '\U{FEFF}'
  }

  /** The string with its leading white space removed. */
  function TrimStart(s: string): (r: string)
    ensures |r| <= |s| && r == s[|s| - |r|..]
    ensures forall i :: 0 <= i < |s| - |r| ==> IsJsSpace(s[i])
    ensures r == [] || !IsJsSpace(r[0])
  {
    if s != [] && IsJsSpace(s[0]) then TrimStart(s[1..]) else s
  }

  /** End of the run of digits that starts at position i. */
  function DigitsEnd(s: string, i: nat): (j: nat)
    requires i <= |s|
    ensures i <= j <= |s|
    ensures AllDigits(s[i..j])
    ensures j == |s| || !IsDigit(s[j])
    decreases |s| - i
  {
    if i < |s| && IsDigit(s[i]) then DigitsEnd(s, i + 1) else i
  }

  /** x divided by 10 n times, as a decimal point moved n places to the left does. */
  function Shift(x: real, n: nat): (r: real)
    ensures x > 0.0 ==> r > 0.0
    ensures x == 0.0 ==> r == 0.0
  {
    if n == 0 then x else Shift(x, n - 1) / 10.0
  }

  /** x multiplied by 10, n times. */
  function Raise(x: real, n: nat): (r: real)
    ensures x > 0.0 ==> r > 0.0
    ensures x == 0.0 ==> r == 0.0
  {
    if n == 0 then x else Raise(x, n - 1) * 10.0
  }

  /** x scaled by an exponent part `e[+-]digits` at the head of s; x itself when s does not start
      with a complete exponent part (parseFloat then stops before the `e`). */
  function ApplyExponent(x: real, s: string): (r: real)
    ensures s == [] || (s[0] != 'e' && s[0] != 'E') ==> r == x
    ensures x > 0.0 ==> r > 0.0
    ensures x == 0.0 ==> r == 0.0
  {
    if |s| >= 1 && (s[0] == 'e' || s[0] == 'E') then
      var signLen := if |s| >= 2 && (s[1] == '+' || s[1] == '-') then 1 else 0;
      var e := DigitsEnd(s, 1 + signLen);
      if e == 1 + signLen then x
      else
        var k := DigitsValue(s[1 + signLen..e]);
        if signLen == 1 && s[1] == '-' then Shift(x, k) else Raise(x, k)
    else x
  }

  /** The value written by an integer part, then a point, then `fracLen` fraction digits reading `fracDigits`. */
  function Decimal(intPart: nat, fracDigits: nat, fracLen: nat): real
  {
    intPart as real + Shift(fracDigits as real, fracLen)
  }

  lemma DecimalWhole(n: nat)
    ensures Decimal(n, 0, 0) == n as real
  {
    assert Shift(0.0, 0) == 0.0;
  }

  /** Value of the longest prefix of s that is an unsigned decimal literal
      (digits [. digits] [exponent], or . digits [exponent]); None when there is none. */
  function UnsignedPrefix(s: string): (r: Option<real>)
    ensures r.Some? ==> r.value >= 0.0
  {
    var i := DigitsEnd(s, 0);
    var hasDot := i < |s| && s[i] == '.';
    var f := if hasDot then DigitsEnd(s, i + 1) else i;
    var fraction := if hasDot then s[i + 1..f] else [];
    if i == 0 && |fraction| == 0 then None
    else
      Some(ApplyExponent(Decimal(DigitsValue(s[..i]), DigitsValue(fraction), |fraction|), s[f..]))
  }

  /** `parseFloat` on a string: skip leading white space, read an optional sign and the longest
      decimal literal prefix; NaN when there is none. */
  function ParseFloatString(s: string): (r: Number)
    ensures TrimStart(s) == [] ==> r == NaN
    ensures r.Finite? && r.value < 0.0 ==> TrimStart(s)[0] == '-'
  {
    var t := TrimStart(s);
    var negative := t != [] && t[0] == '-';
    var body := if t != [] && (t[0] == '+' || t[0] == '-') then t[1..] else t;
    match UnsignedPrefix(body)
    case None => NaN
    case Some(x) => Finite(if negative then -x else x)
  }

  /** `parseFloat(v)`: a number is returned as it is (its decimal form reads back to the same
      number), a string is parsed, and undefined, null and booleans are NaN: `ParseFloatOfWord`
      shows that this is what parsing the words they print as gives. */
  function ParseFloat(v: JsValue): (r: Number)
    ensures v.Num? ==> r == v.n
    ensures v.Undefined? || v.Null? || v.Bool? ==> r == NaN
  {
    match v
    case Num(n) => n
    case Str(s) => ParseFloatString(s)
    case _ => NaN
  }

  /** The word `String(v)` gives for undefined, null or a boolean. */
  function Word(v: JsValue): (w: string)
    requires v.Undefined? || v.Null? || v.Bool?
    ensures w != [] && !IsJsSpace(w[0]) && !IsDigit(w[0]) && w[0] !in "+-."
  {
    match v
    case Undefined => "undefined"
    case Null => "null"
    case Bool(b) => if b then "true" else "false"
  }

  /** For undefined, null and booleans `parseFloat` parses the word the value prints as. */
  lemma ParseFloatOfWord(v: JsValue)
    requires v.Undefined? || v.Null? || v.Bool?
    ensures ParseFloat(v) == ParseFloatString(Word(v))
  {
    NonNumericParsesToNaN(Word(v));
  }

  /** DigitsEnd stops exactly at the end of a maximal run of digits. */
  lemma {:induction false} DigitsEndAt(s: string, i: nat, j: nat)
    requires i <= j <= |s|
    requires forall k :: i <= k < j ==> IsDigit(s[k])
    requires j == |s| || !IsDigit(s[j])
    ensures DigitsEnd(s, i) == j
    decreases j - i
  {
    if i < j {
      DigitsEndAt(s, i + 1, j);
    }
  }

  /** The unsigned literal reader on a string whose integer digits end at i and whose literal ends
      at f, where no exponent part follows. */
  lemma UnsignedPrefixAt(s: string, i: nat, f: nat)
    requires 0 < i <= f <= |s|
    requires DigitsEnd(s, 0) == i
    requires f == i ==> i == |s| || s[i] != '.'
    requires f > i ==> s[i] == '.' && DigitsEnd(s, i + 1) == f
    requires f == |s| || (s[f] != 'e' && s[f] != 'E')
    ensures UnsignedPrefix(s) == Some(if f > i then Decimal(DigitsValue(s[..i]), DigitsValue(s[i + 1..f]), f - i - 1)
                                      else Decimal(DigitsValue(s[..i]), 0, 0))
  {
    var hasDot := i < |s| && s[i] == '.';
    assert hasDot <==> f > i;
    var fraction := if hasDot then s[i + 1..f] else [];
    NoExponentAt(s, f, Decimal(DigitsValue(s[..i]), DigitsValue(fraction), |fraction|));
  }

  /** Where no `e` follows the literal, the exponent part leaves the value as it is. */
  lemma NoExponentAt(s: string, f: nat, x: real)
    requires f <= |s| && (f == |s| || (s[f] != 'e' && s[f] != 'E'))
    ensures ApplyExponent(x, s[f..]) == x
  {
    assert s[f..] == [] || s[f..][0] == s[f];
  }

  /** A string that starts with a digit is read without sign or leading white space. */
  lemma ParseFloatDigitFirst(s: string, v: real)
    requires s != [] && IsDigit(s[0])
    requires UnsignedPrefix(s) == Some(v)
    ensures ParseFloatString(s) == Finite(v)
  {
    NoLeadingSpace(s);
  }

  /** Text that does not start with white space is not trimmed. */
  lemma NoLeadingSpace(s: string)
    requires s != [] && IsDigit(s[0])
    ensures TrimStart(s) == s
  {
    assert !IsJsSpace(s[0]);
  }

  /** A non-empty string of digits parses to its decimal value. */
  lemma WholeParses(whole: string)
    requires |whole| > 0 && AllDigits(whole)
    ensures ParseFloatString(whole) == Finite(DigitsValue(whole) as real)
  {
    DigitsEndAt(whole, 0, |whole|);
    UnsignedPrefixAt(whole, |whole|, |whole|);
    assert whole[..|whole|] == whole;
    DecimalWhole(DigitsValue(whole));
    ParseFloatDigitFirst(whole, DigitsValue(whole) as real);
  }

  /** The unsigned literal reader on digits before position i, a point at i, and digits from i + 1 up
      to f, where the text stops being a literal. */
  lemma PointedPrefix(s: string, i: nat, f: nat)
    requires 0 < i < f <= |s| && s[i] == '.'
    requires AllDigits(s[..i]) && AllDigits(s[i + 1..f])
    requires f == |s| || (!IsDigit(s[f]) && s[f] != 'e' && s[f] != 'E')
    ensures UnsignedPrefix(s) == Some(Decimal(DigitsValue(s[..i]), DigitsValue(s[i + 1..f]), f - i - 1))
  {
    assert forall k :: 0 <= k < i ==> s[k] == s[..i][k];
    DigitsEndAt(s, 0, i);
    assert forall k :: i + 1 <= k < f ==> s[k] == s[i + 1..f][k - i - 1];
    DigitsEndAt(s, i + 1, f);
    UnsignedPrefixAt(s, i, f);
  }

  /** `parseFloat` on digits, a point, more digits and then text that cannot continue the literal. */
  lemma PointedDigitsParse(s: string, i: nat, f: nat)
    requires 0 < i < f <= |s| && s[i] == '.'
    requires AllDigits(s[..i]) && AllDigits(s[i + 1..f])
    requires f == |s| || (!IsDigit(s[f]) && s[f] != 'e' && s[f] != 'E')
    ensures ParseFloatString(s) == Finite(Decimal(DigitsValue(s[..i]), DigitsValue(s[i + 1..f]), f - i - 1))
  {
    PointedPrefix(s, i, f);
    assert s[..i][0] == s[0];
    ParseFloatDigitFirst(s, Decimal(DigitsValue(s[..i]), DigitsValue(s[i + 1..f]), f - i - 1));
  }

  /** Digits, a point and more digits parse to the decimal value they write, whatever non-literal
      text follows. */
  lemma DecimalParses(whole: string, fraction: string, rest: string)
    requires |whole| > 0 && AllDigits(whole) && AllDigits(fraction)
    requires rest == [] || (!IsDigit(rest[0]) && rest[0] != 'e' && rest[0] != 'E')
    ensures ParseFloatString(whole + "." + fraction + rest)
         == Finite(Decimal(DigitsValue(whole), DigitsValue(fraction), |fraction|))
  {
    var s := whole + "." + fraction + rest;
    var i := |whole|;
    var f := i + 1 + |fraction|;
    assert s[..i] == whole && s[i + 1..f] == fraction;
    assert f < |s| ==> s[f] == rest[0];
    PointedDigitsParse(s, i, f);
  }

  /** The decimal form of a natural number parses back to it. */
  lemma NatToStringParses(n: nat)
    ensures ParseFloatString(NatToString(n)) == Finite(n as real)
  {
    WholeParses(NatToString(n));
    NatToStringRoundTrip(n);
  }

  /** Text that does not start with white space, a sign, a point or a digit is not a number. */
  lemma NonNumericParsesToNaN(s: string)
    requires s != [] && !IsJsSpace(s[0]) && !IsDigit(s[0]) && s[0] !in "+-."
    ensures ParseFloatString(s) == NaN
  {
    assert TrimStart(s) == s;
    assert DigitsEnd(s, 0) == 0;
  }

  // ---------------------------------------------------------------------------
  // 32-bit wrap-around
  // ---------------------------------------------------------------------------

  const TwoTo32: int := 0x1_0000_0000
  const TwoTo31: int := 0x8000_0000

  predicate IsInt32(x: int) { -TwoTo31 <= x < TwoTo31 }

  /** ECMAScript ToInt32 on an integer: reduce modulo 2^32 into the signed range. */
  function ToInt32(x: int): (r: int)
    ensures IsInt32(r)
    ensures (x - r) % TwoTo32 == 0
  {
    var m := x % TwoTo32;
    if m >= TwoTo31 then m - TwoTo32 else m
  }

  /** ToInt32 depends only on its argument modulo 2^32. */
  lemma ToInt32Congruent(a: int, b: int, k: int)
    requires a == b + k * TwoTo32
    ensures ToInt32(a) == ToInt32(b)
  {
    var qb := b / TwoTo32;
    var rb := b % TwoTo32;
    assert b == qb * TwoTo32 + rb && 0 <= rb < TwoTo32;
    assert a == (qb + k) * TwoTo32 + rb;
    assert a % TwoTo32 == rb;
  }

  /** ToInt32 leaves a value already in the signed 32-bit range unchanged. */
  lemma ToInt32OfInt32(x: int)
    requires IsInt32(x)
    ensures ToInt32(x) == x
  {
    if x < 0 {
      ToInt32Congruent(x, x + TwoTo32, -1);
    }
  }
}
