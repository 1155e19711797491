/**
 * ECMAScript's `Number(value)` conversion, restricted to what can be said
 * about finite numbers, and the handful of value-level operators the receipt
 * code uses on loosely typed JSON (`??`, truthiness).
 *
 * Numbers are modelled as mathematical reals: a conversion returns `Some(v)`
 * for a finite number `v` and `None` for NaN and for the infinities, which is
 * all the callers distinguish (each of them checks `Number.isFinite`).
 */
module JsNumber {
  import opened Wrappers
  import opened JsText

  // ---------------------------------------------------------------------------
  // Decimal digit strings
  // ---------------------------------------------------------------------------

  function DigitValue(c: char): nat
    requires IsDigit(c)
  {
    c as int - '0' as int
  }

  function Pow10(n: nat): (r: nat)
    ensures r >= 1
  {
    if n == 0 then 1 else 10 * Pow10(n - 1)
  }

  /** The value of a string of decimal digits, most significant first. */
  function DigitsValue(s: string): (r: nat)
    requires AllDigits(s)
    ensures r < Pow10(|s|)
  {
    if s == [] then 0
    else
      var d := DigitValue(s[|s| - 1]);
      var v := DigitsValue(s[..|s| - 1]);
      assert v + 1 <= Pow10(|s| - 1);
      assert 10 * v + d < 10 * (v + 1);
      10 * v + d
  }

  lemma AllDigitsAppend(a: string, b: string)
    requires AllDigits(a) && AllDigits(b)
    ensures AllDigits(a + b)
  {
  }

  /** Writing digits after a digit string shifts its value by a power of ten. */
  lemma {:induction false} DigitsValueAppend(a: string, b: string)
    requires AllDigits(a) && AllDigits(b)
    ensures AllDigits(a + b)
    ensures DigitsValue(a + b) == DigitsValue(a) * Pow10(|b|) + DigitsValue(b)
  {
    if b == [] {
      assert a + b == a;
    } else {
      var b' := b[..|b| - 1];
      assert (a + b)[..|a + b| - 1] == a + b';
      assert (a + b)[|a + b| - 1] == b[|b| - 1];
      DigitsValueAppend(a, b');
      var x, p, y, d := DigitsValue(a), Pow10(|b'|), DigitsValue(b'), DigitValue(b[|b| - 1]);
      assert DigitsValue(a + b) == 10 * (x * p + y) + d;
      assert Pow10(|b|) == 10 * p;
      assert DigitsValue(b) == 10 * y + d;
      MulShift(x, p);
      assert 10 * (x * p + y) + d == x * (10 * p) + (10 * y + d);
    }
  }

  lemma MulShift(x: nat, p: nat)
    ensures 10 * (x * p) == x * (10 * p)
  {
  }

  /** The length of the longest prefix of `s` made of decimal digits. */
  function DigitRun(s: string): (n: nat)
    ensures n <= |s| && AllDigits(s[..n])
    ensures n == |s| || !IsDigit(s[n])
  {
    if s != [] && IsDigit(s[0]) then
      var n := 1 + DigitRun(s[1..]);
      assert s[..n] == [s[0]] + s[1..][..n - 1];
      n
    else 0
  }

  /** The digit run of digits followed by a non-digit is exactly those digits. */
  lemma {:induction false} DigitRunOf(a: string, b: string)
    requires AllDigits(a) && (b == [] || !IsDigit(b[0]))
    ensures DigitRun(a + b) == |a|
  {
    if a == [] {
      assert a + b == b;
    } else {
      assert (a + b)[1..] == a[1..] + b;
      DigitRunOf(a[1..], b);
    }
  }

  // ---------------------------------------------------------------------------
  // Number(string)
  // ---------------------------------------------------------------------------

  /** `v * 10^e` for an integer exponent. */
  function ScaleBy(v: real, e: int): (r: real)
    requires v >= 0.0
    ensures r >= 0.0
    decreases if e >= 0 then e else -e
  {
    if e == 0 then v
    else if e > 0 then 10.0 * ScaleBy(v, e - 1)
    else ScaleBy(v, e + 1) / 10.0
  }

  /** The value of the digits `f` written after a decimal point. */
  function Fraction(f: string): (r: real)
    requires AllDigits(f)
    ensures 0.0 <= r < 1.0
  {
    if f == [] then 0.0 else (DigitValue(f[0]) as real + Fraction(f[1..])) / 10.0
  }

  /** Two fraction digits are cents. */
  lemma Cents(f: string)
    requires AllDigits(f) && |f| == 2
    ensures Fraction(f) == DigitsValue(f) as real / 100.0
  {
    var d0, d1 := DigitValue(f[0]), DigitValue(f[1]);
    assert f[1..][1..] == [];
    assert Fraction(f[1..]) == d1 as real / 10.0;
    assert f[..1][..0] == [];
    assert DigitsValue(f[..1]) == d0;
    assert DigitsValue(f) == 10 * d0 + d1;
  }

  /** The value of `i.f` for digit strings `i` and `f`. */
  function Mantissa(i: string, f: string): (r: real)
    requires AllDigits(i) && AllDigits(f)
    ensures r >= 0.0
  {
    DigitsValue(i) as real + Fraction(f)
  }

  /** The ExponentPart of a StrUnsignedDecimalLiteral, or the empty string for exponent 0. */
  function Exponent(t: string): Option<int> {
    if t == [] then Some(0)
    else if t[0] != 'e' && t[0] != 'E' then None
    else
      var u := t[1..];
      var signed := u != [] && (u[0] == '-' || u[0] == '+');
      var digits := if signed then u[1..] else u;
      if digits != [] && AllDigits(digits) then
        Some(if signed && u[0] == '-' then -(DigitsValue(digits) as int) else DigitsValue(digits) as int)
      else None
  }

  /**
   * A StrUnsignedDecimalLiteral: `Infinity` (not finite, so `None`), or
   * digits with an optional `.` fraction and an optional exponent, with at
   * least one digit before the exponent.
   */
  function UnsignedDecimal(s: string): (r: Option<real>)
    ensures r.Some? ==> r.value >= 0.0
  {
    if IsInfinity(s) then None
    else
      var n := DigitRun(s);
      DecimalAfterDigits(s[..n], s[n..])
  }

  predicate IsInfinity(s: string) {
    s == "Infinity"
  }

  /** The rest of a decimal literal after its integer digits `i`. */
  function DecimalAfterDigits(i: string, rest: string): (r: Option<real>)
    requires AllDigits(i)
    ensures r.Some? ==> r.value >= 0.0
  {
    if rest != [] && rest[0] == '.' then DecimalAfterDot(i, rest[1..])
    else if i == [] then None
    else WithExponent(Mantissa(i, []), rest)
  }

  /** The rest of a decimal literal after `i.`; `.` alone has no digit. */
  function DecimalAfterDot(i: string, rest: string): (r: Option<real>)
    requires AllDigits(i)
    ensures r.Some? ==> r.value >= 0.0
  {
    var m := DigitRun(rest);
    if |i| + m == 0 then None
    else WithExponent(Mantissa(i, rest[..m]), rest[m..])
  }

  /** A mantissa `v` followed by the text `tail`, which must be an exponent part or nothing. */
  function WithExponent(v: real, tail: string): (r: Option<real>)
    requires v >= 0.0
    ensures r.Some? ==> r.value >= 0.0
  {
    match Exponent(tail)
    case None => None
    case Some(e) => Some(ScaleBy(v, e))
  }

  /** The value of a digit in the given radix (2, 8 or 16), if it is one. */
  function RadixDigit(c: char, radix: nat): Option<nat> {
    var v :=
      if '0' <= c <= '9' then c as int - '0' as int
      else if 'a' <= c <= 'f' then c as int - 'a' as int + 10
      else if 'A' <= c <= 'F' then c as int - 'A' as int + 10
      else radix;
    if v < radix then Some(v) else None
  }

  /** The value of a non-prefixed binary, octal or hexadecimal digit string. */
  function RadixValue(s: string, radix: nat): Option<nat> {
    if s == [] then Some(0)
    else
      match (RadixValue(s[..|s| - 1], radix), RadixDigit(s[|s| - 1], radix))
      case (Some(v), Some(d)) => Some(radix * v + d)
      case _ => None
  }

  /** `0x`/`0o`/`0b` literals need at least one digit. */
  function RadixNumber(s: string, radix: nat): Option<real> {
    if s == [] then None
    else
      match RadixValue(s, radix)
      case Some(v) => Some(v as real)
      case None => None
  }

  /** The radix a `0x`, `0o` or `0b` prefix announces, or 0 for none of them. */
  function RadixOf(c: char): nat {
    if c == 'x' || c == 'X' then 16
    else if c == 'o' || c == 'O' then 8
    else if c == 'b' || c == 'B' then 2
    else 0
  }

  function Negate(o: Option<real>): Option<real> {
    match o
    case Some(v) => Some(-v)
    case None => None
  }

  /**
   * `Number(s)` for a string: white space around the literal is ignored, an
   * empty or blank string is 0, and the literal is a signed decimal or an
   * unsigned binary, octal or hexadecimal integer. `None` stands for NaN and
   * for the infinities.
   */
  function StringToNumber(s: string): Option<real> {
    var t := Trim(s);
    if t == [] then Some(0.0) else NumericLiteral(t)
  }

  /** StrNumericLiteral, for a string with no white space around it. */
  function NumericLiteral(t: string): Option<real>
    requires t != []
  {
    if |t| >= 2 && t[0] == '0' && RadixOf(t[1]) != 0 then RadixNumber(t[2..], RadixOf(t[1]))
    else
      var v := UnsignedDecimal(if t[0] == '-' || t[0] == '+' then t[1..] else t);
      if t[0] == '-' then Negate(v) else v
  }

  // ---------------------------------------------------------------------------
  // Number(string) on the texts the receipt code builds
  // ---------------------------------------------------------------------------

  /** A blank string converts to 0. */
  lemma BlankIsZero(s: string)
    requires forall i | 0 <= i < |s| :: IsSpace(s[i])
    ensures StringToNumber(s) == Some(0.0)
  {
    TrimEmpty(s);
  }

  /**
   * The characters the receipt code keeps before calling `Number`: digits,
   * minus signs, dots and commas.
   */
  predicate IsNumeralChar(c: char) {
    IsDigit(c) || c == '-' || c == '.' || c == ','
  }

  predicate AllNumeral(s: string) {
    forall i | 0 <= i < |s| :: IsNumeralChar(s[i])
  }

  /**
   * `Number(c)` for a string of numeral characters, read directly: empty is
   * 0, one leading `-` negates, and the rest must be digits with at most one
   * `.` and at least one digit.
   */
  function NumeralNumber(c: string): Option<real> {
    if c == [] then Some(0.0)
    else if c[0] == '-' then Negate(UnsignedNumeral(c[1..]))
    else UnsignedNumeral(c)
  }

  /** Digits, optionally followed by `.` and more digits, with at least one digit in all. */
  function UnsignedNumeral(u: string): (r: Option<real>)
    ensures r.Some? ==> r.value >= 0.0
  {
    var n := DigitRun(u);
    if n < |u| && u[n] == '.' then
      var f := u[n + 1..];
      var m := DigitRun(f);
      if n + m == 0 || m < |f| then None else Some(Mantissa(u[..n], f[..m]))
    else if n == 0 || n < |u| then None
    else Some(DigitsValue(u[..n]) as real)
  }

  /** After the digits of a numeral, an exponent part cannot start. */
  lemma WithExponentNumeral(v: real, tail: string)
    requires v >= 0.0 && AllNumeral(tail)
    ensures WithExponent(v, tail) == if tail == [] then Some(v) else None
  {
  }

  lemma UnsignedAgrees(u: string)
    requires AllNumeral(u)
    ensures UnsignedNumeral(u) == UnsignedDecimal(u)
  {
    if u != [] {
      assert u[0] != 'I';
    }
    assert !IsInfinity(u);
    var n := DigitRun(u);
    var i, rest := u[..n], u[n..];
    if n < |u| && u[n] == '.' {
      var f := u[n + 1..];
      assert rest[1..] == f;
      var m := DigitRun(f);
      if n + m != 0 {
        WithExponentNumeral(Mantissa(i, f[..m]), f[m..]);
      }
    } else if n != 0 {
      WithExponentNumeral(Mantissa(i, []), rest);
      assert Mantissa(i, []) == DigitsValue(i) as real;
    }
  }

  /** On numeral characters the direct reading is `Number`. */
  lemma NumeralAgrees(c: string)
    requires AllNumeral(c)
    ensures NumeralNumber(c) == StringToNumber(c)
  {
    if c == [] {
      BlankIsZero(c);
    } else {
      TrimNoSpace(c);
      assert c[0] != '+';
      if |c| >= 2 {
        assert RadixOf(c[1]) == 0;
      }
      if c[0] == '-' {
        UnsignedAgrees(c[1..]);
      } else {
        UnsignedAgrees(c);
      }
    }
  }

  /** `i.f` with at least one digit reads as its decimal value. */
  lemma UnsignedDecimalNumeral(i: string, f: string)
    requires AllDigits(i) && AllDigits(f) && |i| + |f| >= 1
    ensures UnsignedNumeral(i + "." + f) == Some(Mantissa(i, f))
  {
    var u := i + "." + f;
    DigitRunOf(i, "." + f);
    assert u == i + ("." + f);
    assert u[..|i|] == i && u[|i| + 1..] == f;
    assert f + [] == f;
    DigitRunOf(f, []);
    assert f[..|f|] == f;
  }

  /** `Number("i.f")` is the decimal value `i.f`. */
  lemma DecimalNumeral(i: string, f: string)
    requires AllDigits(i) && AllDigits(f) && |i| + |f| >= 1
    ensures NumeralNumber(i + "." + f) == Some(Mantissa(i, f))
  {
    var u := i + "." + f;
    assert u[0] == '.' || IsDigit(u[0]);
    UnsignedDecimalNumeral(i, f);
  }

  /** `Number("-i.f")` is minus the decimal value `i.f`. */
  lemma NegativeDecimalNumeral(i: string, f: string)
    requires AllDigits(i) && AllDigits(f) && |i| + |f| >= 1
    ensures NumeralNumber("-" + (i + "." + f)) == Some(-Mantissa(i, f))
  {
    var u := i + "." + f;
    assert ("-" + u)[1..] == u;
    UnsignedDecimalNumeral(i, f);
  }

  /** `Number(i)` for a non-empty digit string is its value. */
  lemma IntegerNumeral(i: string)
    requires AllDigits(i) && i != []
    ensures NumeralNumber(i) == Some(DigitsValue(i) as real)
  {
    assert i + [] == i;
    DigitRunOf(i, []);
    assert i[..|i|] == i;
  }

  /** A decimal numeral followed by a `-` is not a number. */
  lemma TrailingMinusNumeral(i: string, f: string)
    requires AllDigits(i) && AllDigits(f)
    ensures NumeralNumber(i + "." + f + "-") == None
  {
    var u := i + "." + f + "-";
    assert u[0] == '.' || IsDigit(u[0]);
    DigitRunOf(i, "." + f + "-");
    assert u == i + ("." + f + "-");
    assert u[..|i|] == i && u[|i| + 1..] == f + "-";
    DigitRunOf(f, "-");
  }

  /** No number has a comma. */
  lemma CommaNumeral(c: string, k: nat)
    requires k < |c| && c[k] == ','
    ensures NumeralNumber(c) == None
  {
    if c[0] == '-' {
      assert c[1..][k - 1] == ',';
      CommaUnsigned(c[1..], k - 1);
    } else {
      CommaUnsigned(c, k);
    }
  }

  lemma CommaUnsigned(u: string, k: nat)
    requires k < |u| && u[k] == ','
    ensures UnsignedNumeral(u) == None
  {
    var n := DigitRun(u);
    assert k >= n;
    if n < |u| && u[n] == '.' {
      var f := u[n + 1..];
      assert f[k - n - 1] == ',';
      var m := DigitRun(f);
      assert k - n - 1 >= m;
    }
  }

  // ---------------------------------------------------------------------------
  // String(n) for the counters used as identifiers
  // ---------------------------------------------------------------------------

  function DigitChar(d: nat): (c: char)
    requires d <= 9
    ensures IsDigit(c) && DigitValue(c) == d
  {
    ('0' as int + d) as char
  }

  /** `String(n)` for a natural number: its decimal digits without leading zeros. */
  function NatToString(n: nat): (r: string)
    ensures AllDigits(r) && r != []
    ensures |r| > 1 ==> r[0] != '0'
    ensures DigitsValue(r) == n
  {
    if n < 10 then [DigitChar(n)]
    else
      var r := NatToString(n / 10) + [DigitChar(n % 10)];
      assert r[..|r| - 1] == NatToString(n / 10);
      r
  }

  /** Different numbers print differently. */
  lemma NatToStringInjective(a: nat, b: nat)
    requires NatToString(a) == NatToString(b)
    ensures a == b
  {
  }

  // ---------------------------------------------------------------------------
  // Loosely typed JSON values
  // ---------------------------------------------------------------------------

  /**
   * A JSON value as the code sees it: `undefined`, `null`, a boolean, a
   * (finite) number, a string, or anything else (an object or an array).
   */
  datatype JsValue = Undefined | Null | Bool(b: bool) | Num(n: real) | Str(s: string) | Obj

  /** `a == null`: the values `??` skips. */
  predicate Nullish(v: JsValue) {
    v.Undefined? || v.Null?
  }

  /** `a ?? b` */
  function Coalesce(a: JsValue, b: JsValue): JsValue {
    if Nullish(a) then b else a
  }

  /** ToBoolean: what `if (v)` and `a || b` test. */
  predicate Truthy(v: JsValue) {
    match v
    case Undefined => false
    case Null => false
    case Bool(b) => b
    case Num(n) => n != 0.0
    case Str(s) => s != []
    case Obj => true
  }

  /** `a || b` */
  function Or(a: JsValue, b: JsValue): JsValue {
    if Truthy(a) then a else b
  }

  /** `Number(v)`; `None` for NaN and the infinities. */
  function ToNumber(v: JsValue): Option<real> {
    match v
    case Undefined => None
    case Null => Some(0.0)
    case Bool(b) => Some(if b then 1.0 else 0.0)
    case Num(n) => Some(n)
    case Str(s) => StringToNumber(s)
    case Obj => None
  }

  /** The value a `?? undefined`-style optional number field holds in JSON. */
  function OptNum(o: Option<real>): JsValue {
    match o
    case Some(n) => Num(n)
    case None => Undefined
  }
}
