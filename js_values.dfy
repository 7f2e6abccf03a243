/**
 * The few pieces of JavaScript value semantics the server's handlers depend on:
 * what a field of a JSON request body can be, when it is truthy, how a template
 * literal renders it, and how `parseInt` reads a route parameter.
 */
module JsValues {
  import opened Wrappers

  /**
   * A value found in a JSON request body. `Missing` is `undefined` (the key is
   * absent). Numbers are integers only.
   */
  datatype Field = Missing | Null | Bool(b: bool) | Num(n: int) | Text(s: string)

  /**
   * JavaScript truthiness, as tested by `!x` and `if (x)`: `undefined`,
   * `null`, `false`, `0` and `""` are falsy. A number is falsy exactly when
   * it renders as `0`, a string exactly when it is empty.
   */
  predicate Truthy(f: Field): (t: bool)
    ensures f.Missing? || f.Null? ==> !t
    ensures f.Num? ==> (t <==> NumberToString(f.n) != "0")
    ensures f.Text? ==> (t <==> |f.s| > 0)
  {
    match f
    case Missing => false
    case Null => false
    case Bool(b) => b
    case Num(n) => n != 0
    case Text(s) => s != ""
  }

  predicate IsDecimalDigit(c: char) {
    '0' <= c <= '9'
  }

  function DigitChar(d: nat): (c: char)
    requires d < 10
    ensures IsDecimalDigit(c) && c as int - '0' as int == d
  {
    ('0' as int + d) as char
  }

  /** The decimal digits of a natural number, most significant first, without leading zeros. */
  function Digits(m: nat): (s: string)
    ensures |s| > 0
    ensures forall i :: 0 <= i < |s| ==> IsDecimalDigit(s[i])
    ensures |s| > 1 ==> s[0] != '0'
  {
    if m < 10 then [DigitChar(m)] else Digits(m / 10) + [DigitChar(m % 10)]
  }

  /** `String(n)` for an integer-valued Number. */
  function NumberToString(n: int): (s: string)
    ensures |s| > 0
    ensures s[0] == '-' <==> n < 0
  {
    if n < 0 then "-" + Digits(-n) else Digits(n)
  }

  /**
   * How a template literal `${f}` renders a field: a string as itself, a
   * number as its decimal digits (which `parseInt` reads back), and
   * `undefined`, `null` and the booleans by name.
   */
  function TemplateString(f: Field): (s: string)
    ensures f.Text? ==> s == f.s
    ensures f.Num? ==> ParseInt(s) == Some(f.n)
    ensures f.Missing? ==> s == "undefined"
    ensures f.Null? ==> s == "null"
    ensures f.Bool? ==> s == (if f.b then "true" else "false")
  {
    match f
    case Missing => "undefined"
    case Null => "null"
    case Bool(b) => if b then "true" else "false"
    case Num(n) =>
      assert NumberToString(n) + [] == NumberToString(n);
      ParseIntReadsNumberToString(n, []);
      NumberToString(n)
    case Text(s) => s
  }

  /** The characters `parseInt` skips at the start: ECMAScript WhiteSpace and LineTerminator. */
  predicate IsJsSpace(c: char) {
    || c == '\t' || c == '\U{000B}' || c == '\U{000C}' || c == ' '
    || c == '\U{00A0}' || c == '\U{FEFF}'
    || c == '\n' || c == '\r' || c == '\U{2028}' || c == '\U{2029}'
    || c == '\U{1680}' || ('\U{2000}' <= c <= '\U{200A}')
    || c == '\U{202F}' || c == '\U{205F}' || c == '\U{3000}'
  }

  /** The string with its leading white space removed. */
  function TrimStart(s: string): (t: string)
    ensures |t| <= |s| && t == s[|s| - |t|..]
    ensures forall i :: 0 <= i < |s| - |t| ==> IsJsSpace(s[i])
    ensures t != [] ==> !IsJsSpace(t[0])
  {
    if s != [] && IsJsSpace(s[0]) then TrimStart(s[1..]) else s
  }

  /** The value of an alphanumeric character as a digit in radix 36, or 36 for any other character. */
  function DigitValue(c: char): (d: nat)
    ensures d <= 36
  {
    if '0' <= c <= '9' then c as int - '0' as int
    else if 'a' <= c <= 'z' then c as int - 'a' as int + 10
    else if 'A' <= c <= 'Z' then c as int - 'A' as int + 10
    else 36
  }

  /** The longest prefix of `s` made of digits of the given radix. */
  function DigitPrefix(s: string, radix: nat): (z: string)
    ensures |z| <= |s| && z == s[..|z|]
    ensures forall i :: 0 <= i < |z| ==> DigitValue(z[i]) < radix
    ensures |z| < |s| ==> DigitValue(s[|z|]) >= radix
  {
    if s == [] || DigitValue(s[0]) >= radix then [] else [s[0]] + DigitPrefix(s[1..], radix)
  }

  /** The number that a string of digits denotes in the given radix. */
  function DigitsValue(z: string, radix: nat): nat
    requires forall i :: 0 <= i < |z| ==> DigitValue(z[i]) < radix
  {
    if z == [] then 0
    else
      var init := z[..|z| - 1];
      assert forall i :: 0 <= i < |init| ==> init[i] == z[i];
      var high := DigitsValue(init, radix);
      assert high * radix >= 0 by { NonNegativeProduct(high, radix); }
      high * radix + DigitValue(z[|z| - 1])
  }

  lemma NonNegativeProduct(a: nat, b: nat)
    ensures a * b >= 0
  {
  }

  /**
   * The unsigned part of `parseInt`: hexadecimal after a `0x`/`0X` prefix,
   * decimal otherwise, up to the first character that is not a digit; `None`
   * when there is no digit at all.
   */
  function ParseMagnitude(u: string): (r: Option<nat>)
    ensures r.Some? ==> u != [] && IsDecimalDigit(u[0])
  {
    var hex := |u| >= 2 && u[0] == '0' && (u[1] == 'x' || u[1] == 'X');
    var radix := if hex then 16 else 10;
    var z := DigitPrefix(if hex then u[2..] else u, radix);
    if z == [] then None else Some(DigitsValue(z, radix))
  }

  /**
   * `parseInt(s)` without a radix argument: skip leading white space, take one
   * optional sign, then read the magnitude. `None` is NaN, which no program id
   * equals. A number is found only when, after the white space, a digit
   * comes first or right after one sign; it is negative only after a `-`.
   */
  function ParseInt(s: string): (r: Option<int>)
    ensures r.Some? ==>
      var t := TrimStart(s);
      && t != []
      && (IsDecimalDigit(t[0]) || ((t[0] == '-' || t[0] == '+') && |t| > 1 && IsDecimalDigit(t[1])))
    ensures r.Some? && r.value < 0 ==> TrimStart(s)[0] == '-'
  {
    var t := TrimStart(s);
    var negative := t != [] && t[0] == '-';
    var u := if t != [] && (t[0] == '-' || t[0] == '+') then t[1..] else t;
    match ParseMagnitude(u)
    case None => None
    case Some(v) => if negative then Some(0 - v) else Some(v)
  }

  lemma {:induction false} DigitsValueOfDigits(m: nat)
    ensures forall i :: 0 <= i < |Digits(m)| ==> DigitValue(Digits(m)[i]) < 10
    ensures DigitsValue(Digits(m), 10) == m
  {
    var s := Digits(m);
    if m >= 10 {
      DigitsValueOfDigits(m / 10);
      assert s[..|s| - 1] == Digits(m / 10);
    }
  }

  /** All of a run of digits is its own longest digit prefix, whatever non-digit follows it. */
  lemma {:induction false} DigitPrefixOfDigits(d: string, t: string)
    requires forall i :: 0 <= i < |d| ==> IsDecimalDigit(d[i])
    requires t == [] || DigitValue(t[0]) >= 10
    ensures DigitPrefix(d + t, 10) == d
  {
    if d != [] {
      assert (d + t)[1..] == d[1..] + t;
      DigitPrefixOfDigits(d[1..], t);
    }
  }

  lemma ParseMagnitudeOfDigits(m: nat, t: string)
    requires t == [] || (DigitValue(t[0]) >= 10 && t[0] != 'x' && t[0] != 'X')
    ensures ParseMagnitude(Digits(m) + t) == Some(m)
  {
    var d := Digits(m);
    DigitsValueOfDigits(m);
    DigitPrefixOfDigits(d, t);
    assert |d + t| >= 2 && (d + t)[0] == '0' ==> (d + t)[1] == t[0];
  }

  /**
   * `parseInt` reads back the number a template literal rendered, also when
   * the rendering is followed by text that starts with neither a digit nor an
   * `x`: a client that builds `/api/programs/${id}` reaches program `id`.
   */
  lemma ParseIntReadsNumberToString(n: int, t: string)
    requires t == [] || (DigitValue(t[0]) >= 10 && t[0] != 'x' && t[0] != 'X')
    ensures ParseInt(NumberToString(n) + t) == Some(n)
  {
    if n < 0 {
      var m: nat := -n;
      var d := Digits(m);
      var u := d + t;
      assert u[0] == d[0];
      assert NumberToString(n) + t == ['-'] + u by {
        assert NumberToString(n) == "-" + d;
      }
      ParseMagnitudeOfDigits(m, t);
      ParseIntOfNegative(u, m);
    } else {
      var d := Digits(n);
      var u := d + t;
      assert u[0] == d[0];
      assert NumberToString(n) == d;
      ParseMagnitudeOfDigits(n, t);
      ParseIntOfUnsigned(u);
    }
  }

  /**
   * A parameter that starts with neither white space, a sign nor a decimal
   * digit is NaN (`parseInt("abc")`).
   */
  lemma ParseIntWithoutLeadingDigit(s: string)
    requires s != [] && !IsJsSpace(s[0]) && s[0] != '-' && s[0] != '+' && !IsDecimalDigit(s[0])
    ensures ParseInt(s) == None
  {
    assert TrimStart(s) == s;
    assert DigitPrefix(s, 10) == [];
  }

  lemma ParseIntOfUnsigned(u: string)
    requires u != [] && IsDecimalDigit(u[0])
    ensures ParseInt(u) == ParseMagnitude(u)
  {
    assert !IsJsSpace(u[0]);
    assert TrimStart(u) == u;
  }

  lemma ParseIntOfNegative(u: string, v: nat)
    requires u != [] && IsDecimalDigit(u[0])
    requires ParseMagnitude(u) == Some(v)
    ensures ParseInt(['-'] + u) == Some(-(v as int))
  {
    var s := ['-'] + u;
    assert !IsJsSpace(s[0]);
    assert TrimStart(s) == s;
    assert s[1..] == u;
  }
}
