/**
 * The JavaScript semantics the dashboard's rules rely on: truthiness,
 * `Number(...)` conversion, `|| 0` defaulting, the `\s`/`trim()` whitespace
 * set, `toLowerCase`/`toUpperCase`, `includes` on strings, and integer to
 * decimal text.  Numbers are integers here.
 */
module Js {
  import opened Wrappers

  /** A JavaScript value as far as the modelled code inspects it. */
  datatype JsValue = Undefined | Null | Bool(b: bool) | Num(n: int) | NaN | Str(s: string) | Obj

  /** JavaScript truthiness (`if (v)`, `v || d`). */
  predicate Truthy(v: JsValue) {
    match v
    case Undefined => false
    case Null => false
    case Bool(b) => b
    case Num(n) => n != 0
    case NaN => false
    case Str(s) => s != ""
    case Obj => true
  }

  /** The result of `Number(v)`. */
  datatype Numeric = NotANumber | Fin(value: int)

  /** `Number(v) || 0`: NaN and 0 are both falsy, so both give 0. */
  function OrZero(x: Numeric): (r: int)
    ensures x.Fin? ==> r == x.value
    ensures x.NotANumber? ==> r == 0
  {
    if x.Fin? then x.value else 0
  }

  // ---------------------------------------------------------------- digits

  predicate IsDigit(c: char) { '0' <= c <= '9' }

  predicate AllDigits(s: string) { forall i :: 0 <= i < |s| ==> IsDigit(s[i]) }

  function DigitValue(c: char): (d: nat)
    requires IsDigit(c)
    ensures d < 10
  {
    (c as int) - ('0' as int)
  }

  function DigitChar(d: nat): (c: char)
    requires d < 10
    ensures IsDigit(c) && DigitValue(c) == d
  {
    (('0' as int) + d) as char
  }

  /** The value of a run of decimal digits, read most significant first. */
  function ParseDigits(s: string): nat
    requires AllDigits(s)
  {
    if s == [] then 0 else ParseDigits(s[..|s| - 1]) * 10 + DigitValue(s[|s| - 1])
  }

  /** `String(n)` for a non-negative integer: its shortest decimal rendering. */
  function NatToString(n: nat): (s: string)
    ensures |s| > 0 && AllDigits(s)
    ensures |s| > 1 ==> s[0] != '0'
  {
    if n < 10 then [DigitChar(n)] else NatToString(n / 10) + [DigitChar(n % 10)]
  }

  /** `String(i)` / `${i}` for any integer. */
  function IntToString(i: int): string {
    if i < 0 then "-" + NatToString(-i) else NatToString(i)
  }

  lemma {:induction false} ParseNatToString(n: nat)
    ensures ParseDigits(NatToString(n)) == n
  {
    if n >= 10 {
      var s := NatToString(n);
      assert s[..|s| - 1] == NatToString(n / 10);
      ParseNatToString(n / 10);
    }
  }

  // ------------------------------------------------------------ whitespace

  /**
   * The characters JavaScript's `trim()` removes and `\s` matches: the
   * WhiteSpace and LineTerminator sets of the ECMAScript standard.
   */
  predicate IsSpace(c: char) {
    c == '\t' || c == '\n' || c == '\U{000B}' || c == '\U{000C}' || c == '\r' || c == ' '
    || c == '\U{00A0}' || c == '\U{1680}' || ('\U{2000}' <= c <= '\U{200A}')
    || c == '\U{2028}' || c == '\U{2029}' || c == '\U{202F}' || c == '\U{205F}'
    || c == '\U{3000}' || c == '\U{FEFF}'
  }

  predicate AllSpace(s: string) { forall i :: 0 <= i < |s| ==> IsSpace(s[i]) }

  /** How many whitespace characters `s` starts with. */
  function LeadingSpaces(s: string): (k: nat)
    ensures k <= |s|
    ensures forall i :: 0 <= i < k ==> IsSpace(s[i])
    ensures k < |s| ==> !IsSpace(s[k])
  {
    if s != [] && IsSpace(s[0]) then 1 + LeadingSpaces(s[1..]) else 0
  }

  /** How many whitespace characters `s` ends with. */
  function TrailingSpaces(s: string): (k: nat)
    ensures k <= |s|
    ensures forall i :: |s| - k <= i < |s| ==> IsSpace(s[i])
    ensures k < |s| ==> !IsSpace(s[|s| - 1 - k])
  {
    if s != [] && IsSpace(s[|s| - 1]) then 1 + TrailingSpaces(s[..|s| - 1]) else 0
  }

  /** `s.trim()`: the text between the leading and the trailing whitespace. */
  function Trim(s: string): string {
    var a := LeadingSpaces(s);
    s[a..|s| - TrailingSpaces(s[a..])]
  }

  /**
   * `!s.trim()` holds exactly when `s` is empty or only whitespace; otherwise
   * the trimmed text is a piece of `s` that neither starts nor ends with
   * whitespace.
   */
  lemma TrimSpec(s: string)
    ensures Trim(s) == "" <==> AllSpace(s)
    ensures exists a, b :: 0 <= a <= b <= |s| && Trim(s) == s[a..b]
    ensures var t := Trim(s); t != "" ==> !IsSpace(t[0]) && !IsSpace(t[|t| - 1])
  {
    var a := LeadingSpaces(s);
    var u := s[a..];
    var m := TrailingSpaces(u);
    assert Trim(s) == s[a..|s| - m];
    if AllSpace(s) {
      assert a == |s|;
    }
    if Trim(s) == "" {
      assert m == |u|;
    }
    if Trim(s) != "" {
      assert Trim(s)[0] == s[a];
      assert Trim(s)[|Trim(s)| - 1] == u[|u| - 1 - m];
    }
  }

  // ---------------------------------------------------------- case mapping

  /**
   * `toLowerCase` on one character, for ASCII and the Latin-1 letters
   * (accented French capitals such as 'É', 'À', 'Ç'); other characters are
   * returned unchanged.
   */
  function LowerChar(c: char): char {
    if 'A' <= c <= 'Z' || ('À' <= c <= 'Þ' && c != '×') then
      ((c as int) + 32) as char
    else if c == 'Ÿ' then 'ÿ'
    else c
  }

  /**
   * `toUpperCase` on one character, over the same letters as LowerChar, plus
   * the micro sign 'µ', whose capital is the Greek 'Μ' (U+039C).
   */
  function UpperChar(c: char): char {
    if 'a' <= c <= 'z' || ('à' <= c <= 'þ' && c != '÷') then
      ((c as int) - 32) as char
    else if c == 'ÿ' then 'Ÿ'
    else if c == 'µ' then '\U{039C}'
    else c
  }

  predicate IsUpper(c: char) {
    'A' <= c <= 'Z' || ('À' <= c <= 'Þ' && c != '×') || c == 'Ÿ'
  }

  function Lower(s: string): (r: string)
    ensures |r| == |s|
    ensures forall i :: 0 <= i < |s| ==> r[i] == LowerChar(s[i])
  {
    if s == [] then [] else [LowerChar(s[0])] + Lower(s[1..])
  }

  /** Lower-casing leaves no capital letter behind and changes nothing else. */
  lemma LowerCharSpec(c: char)
    ensures !IsUpper(LowerChar(c))
    ensures !IsUpper(c) ==> LowerChar(c) == c
    ensures LowerChar(LowerChar(c)) == LowerChar(c)
    ensures IsUpper(c) ==> UpperChar(LowerChar(c)) == c
  {
  }

  lemma LowerIdempotent(s: string)
    ensures Lower(Lower(s)) == Lower(s)
  {
    forall i | 0 <= i < |s| ensures Lower(Lower(s))[i] == Lower(s)[i] {
      LowerCharSpec(s[i]);
    }
  }

  // ------------------------------------------------------------- substrings

  predicate StartsWith(s: string, prefix: string) {
    |prefix| <= |s| && s[..|prefix|] == prefix
  }

  /** `s.includes(sub)` */
  predicate Contains(s: string, sub: string)
    decreases |s|
  {
    StartsWith(s, sub) || (s != [] && Contains(s[1..], sub))
  }

  /** An occurrence at position i is enough for `includes`. */
  lemma {:induction false} ContainsAt(s: string, sub: string, i: nat)
    requires i + |sub| <= |s| && s[i..i + |sub|] == sub
    ensures Contains(s, sub)
  {
    if i > 0 {
      assert s[1..][i - 1..i - 1 + |sub|] == s[i..i + |sub|];
      ContainsAt(s[1..], sub, i - 1);
    }
  }

  /** ... and `includes` always has such an occurrence. */
  lemma {:induction false} ContainsWitness(s: string, sub: string) returns (i: nat)
    requires Contains(s, sub)
    ensures i + |sub| <= |s| && s[i..i + |sub|] == sub
  {
    if StartsWith(s, sub) {
      i := 0;
    } else {
      var j := ContainsWitness(s[1..], sub);
      assert s[1..][j..j + |sub|] == s[j + 1..j + 1 + |sub|];
      i := j + 1;
    }
  }

  /** Every string includes the empty string, and includes itself. */
  lemma ContainsTrivial(s: string)
    ensures Contains(s, "") && Contains(s, s)
  {
    assert StartsWith(s, "");
    assert StartsWith(s, s);
  }

  /** A longer needle is never found in a shorter text. */
  lemma {:induction false} ContainsLength(s: string, sub: string)
    requires Contains(s, sub)
    ensures |sub| <= |s|
  {
    var i := ContainsWitness(s, sub);
  }

  /** `s.toLowerCase().includes(query.toLowerCase())`, the search test of every list page. */
  predicate ContainsIgnoringCase(s: string, query: string) {
    Contains(Lower(s), Lower(query))
  }

  /** A string whose first characters match the query up to case contains it, ignoring case. */
  lemma ContainsIgnoringCaseAtStart(s: string, query: string)
    requires |query| <= |s| && forall i :: 0 <= i < |query| ==> LowerChar(s[i]) == LowerChar(query[i])
    ensures ContainsIgnoringCase(s, query)
  {
    assert Lower(s)[..|query|] == Lower(query);
    ContainsAt(Lower(s), Lower(query), 0);
  }

  /** An empty query matches every string. */
  lemma EmptyQueryMatches(s: string)
    ensures ContainsIgnoringCase(s, "")
  {
    ContainsTrivial(Lower(s));
  }

  // ------------------------------------------------------------- `Number()`

  /** The value of a hexadecimal, octal or binary digit, or -1 for any other character. */
  function RadixDigit(c: char): (d: int)
    ensures -1 <= d < 16
  {
    if '0' <= c <= '9' then (c as int) - ('0' as int)
    else if 'a' <= c <= 'f' then (c as int) - ('a' as int) + 10
    else if 'A' <= c <= 'F' then (c as int) - ('A' as int) + 10
    else -1
  }

  predicate AllRadixDigits(s: string, radix: nat) {
    forall i :: 0 <= i < |s| ==> 0 <= RadixDigit(s[i]) < radix
  }

  /** The value of a run of digits in the given radix, read most significant first. */
  function ParseRadix(s: string, radix: nat): nat
    requires AllRadixDigits(s, radix)
  {
    if s == [] then 0 else ParseRadix(s[..|s| - 1], radix) * radix + RadixDigit(s[|s| - 1])
  }

  /** The radix a `0x`, `0o` or `0b` prefix announces (either case), or 0 for any other letter. */
  function RadixOf(c: char): nat {
    if c == 'x' || c == 'X' then 16
    else if c == 'o' || c == 'O' then 8
    else if c == 'b' || c == 'B' then 2
    else 0
  }

  /** A NonDecimalIntegerLiteral: the prefix and at least one digit of its radix, no sign. */
  predicate IsRadixLiteral(t: string) {
    |t| > 2 && t[0] == '0' && RadixOf(t[1]) > 0 && AllRadixDigits(t[2..], RadixOf(t[1]))
  }

  /** The first position holding `a` or `b`, or the length when there is none. */
  function FindEither(t: string, a: char, b: char): (k: nat)
    ensures k <= |t|
    ensures k < |t| ==> t[k] == a || t[k] == b
    ensures forall j :: 0 <= j < k ==> t[j] != a && t[j] != b
  {
    if t == [] || t[0] == a || t[0] == b then 0 else 1 + FindEither(t[1..], a, b)
  }

  function Pow10(k: nat): (p: nat)
    ensures p > 0
  {
    if k == 0 then 1 else 10 * Pow10(k - 1)
  }

  /** The signed exponent after `e`/`E`: an optional sign and at least one digit. */
  function ExponentValue(x: string): Option<int> {
    if |x| > 0 && AllDigits(x) then Some(ParseDigits(x) as int)
    else if |x| > 1 && x[0] == '+' && AllDigits(x[1..]) then Some(ParseDigits(x[1..]) as int)
    else if |x| > 1 && x[0] == '-' && AllDigits(x[1..]) then Some(-(ParseDigits(x[1..]) as int))
    else None
  }

  /**
   * A StrUnsignedDecimalLiteral other than `Infinity`: digits with an optional
   * point and an optional exponent, at least one digit in the mantissa.  Its
   * value is the mantissa's digits shifted by the exponent less the number of
   * fraction digits; a value that is not an integer has no `Fin` reading.
   */
  function UnsignedDecimal(t: string): Numeric {
    var e := FindEither(t, 'e', 'E');
    var mantissa := t[..e];
    var exponent := if e < |t| then ExponentValue(t[e + 1..]) else Some(0);
    var d := FindEither(mantissa, '.', '.');
    var whole := mantissa[..d];
    var fraction := if d < |mantissa| then mantissa[d + 1..] else "";
    if exponent.None? || !AllDigits(whole) || !AllDigits(fraction) || |whole| + |fraction| == 0 then NotANumber
    else
      assert AllDigits(whole + fraction) by {
        forall i | 0 <= i < |whole + fraction| ensures IsDigit((whole + fraction)[i]) {
          if i >= |whole| { assert (whole + fraction)[i] == fraction[i - |whole|]; }
        }
      }
      var n := ParseDigits(whole + fraction);
      var shift := exponent.value - |fraction|;
      if shift >= 0 then Fin(n * Pow10(shift))
      else if n % Pow10(-shift) == 0 then Fin(n / Pow10(-shift))
      else NotANumber
  }

  function Negated(x: Numeric): Numeric {
    match x
    case NotANumber => NotANumber
    case Fin(v) => Fin(-v)
  }

  /**
   * `Number(s)` for text (StringToNumber, section 7.1.4.1.1 of ECMA-262):
   * whitespace around is ignored and blank text is 0; then a `0x`/`0o`/`0b`
   * literal, or a signed decimal literal with optional point and exponent.
   */
  function StringToNumber(s: string): (r: Numeric)
  {
    var t := Trim(s);
    if t == "" then Fin(0)
    else if IsRadixLiteral(t) then Fin(ParseRadix(t[2..], RadixOf(t[1])))
    else if t[0] == '-' then Negated(UnsignedDecimal(t[1..]))
    else if t[0] == '+' then UnsignedDecimal(t[1..])
    else UnsignedDecimal(t)
  }

  /** `Number(v)` */
  function ToNumber(v: JsValue): Numeric {
    match v
    case Undefined => NotANumber
    case Null => Fin(0)
    case Bool(b) => Fin(if b then 1 else 0)
    case Num(n) => Fin(n)
    case NaN => NotANumber
    case Str(s) => StringToNumber(s)
    case Obj => NotANumber
  }

  lemma TrimNoSpaceEnds(s: string)
    requires s != [] ==> !IsSpace(s[0]) && !IsSpace(s[|s| - 1])
    ensures Trim(s) == s
  {
    if s != [] {
      assert LeadingSpaces(s) == 0;
      assert s[0..] == s;
    }
  }

  /** Reading back the decimal text of an integer gives the integer. */
  lemma NumberOfIntToString(i: int)
    ensures StringToNumber(IntToString(i)) == Fin(i)
  {
    if i < 0 {
      NumberOfNegative(-i);
    } else {
      NumberOfNatural(i);
    }
  }

  /** Plain digits read as a decimal literal give their value. */
  lemma UnsignedDecimalOfDigits(t: string)
    requires |t| > 0 && AllDigits(t)
    ensures UnsignedDecimal(t) == Fin(ParseDigits(t))
  {
    assert t[..|t|] == t;
    assert t + "" == t;
  }

  /** The text of a negative integer is a minus sign and the digits of its magnitude. */
  lemma NumberOfNegative(n: nat)
    requires n > 0
    ensures StringToNumber(IntToString(-(n as int))) == Fin(-(n as int))
  {
    var d := NatToString(n);
    ParseNatToString(n);
    var s := "-" + d;
    assert IntToString(-(n as int)) == s;
    assert s[1..] == d;
    assert !IsSpace(s[|s| - 1]) by { assert s[|s| - 1] == d[|d| - 1]; }
    TrimNoSpaceEnds(s);
    UnsignedDecimalOfDigits(d);
  }

  /** The text of a natural number is digits alone. */
  lemma NumberOfNatural(n: nat)
    ensures StringToNumber(IntToString(n)) == Fin(n)
  {
    var d := NatToString(n);
    ParseNatToString(n);
    TrimNoSpaceEnds(d);
    UnsignedDecimalOfDigits(d);
    assert !IsRadixLiteral(d) by { if |d| > 2 { assert d[0] != '0'; } }
  }

  /** An exponent multiplies by a power of ten: `Number("1e3")` is 1000. */
  lemma ExponentNotation()
    ensures StringToNumber("1e3") == Fin(1000)
  {
    var t := "1e3";
    TrimNoSpaceEnds(t);
    assert FindEither(t, 'e', 'E') == 1;
    assert t[..1] == "1" && t[2..] == "3";
    assert ExponentValue("3") == Some(3);
    assert FindEither("1", '.', '.') == 1;
    assert "1"[..1] == "1" && "1" + "" == "1";
    assert ParseDigits("1") == 1;
    assert Pow10(3) == 1000;
  }

  /** Zeros after the point leave an integer: `Number("100.0")` is 100. */
  lemma ZeroFractionNotation()
    ensures StringToNumber("100.0") == Fin(100)
  {
    var t := "100.0";
    TrimNoSpaceEnds(t);
    assert !IsRadixLiteral(t) by { assert RadixOf(t[1]) == 0; }
    FindEitherAbsent(t, 'e', 'E');
    assert t[..5] == t;
    FindEitherAt(t, '.', '.', 3);
    assert t[..3] == "100" && t[4..] == "0";
    assert "100" + "0" == "1000";
    assert ParseDigits("1000") == 1000 by {
      assert "10"[..1] == "1" && "100"[..2] == "10" && "1000"[..3] == "100";
    }
    assert Pow10(1) == 10;
  }

  /** A `0x` prefix reads hexadecimal digits: `Number("0x10")` is 16. */
  lemma HexNotation()
    ensures StringToNumber("0x10") == Fin(16)
  {
    var t := "0x10";
    TrimNoSpaceEnds(t);
    assert t[2..] == "10" && "10"[..1] == "1" && "1"[..0] == "";
    assert RadixOf(t[1]) == 16;
    assert ParseRadix("1", 16) == 1;
    assert ParseRadix("10", 16) == 16;
  }

  /** No sign may precede a `0x` literal: `Number("-0x10")` is NaN. */
  lemma SignedHexIsNaN()
    ensures StringToNumber("-0x10") == NotANumber
  {
    var t := "0x10";
    var u := "-0x10";
    TrimNoSpaceEnds(u);
    assert !IsRadixLiteral(u);
    assert u[1..] == t;
    FindEitherAbsent(t, 'e', 'E');
    assert t[..4] == t;
    FindEitherAbsent(t, '.', '.');
    assert !AllDigits(t[..4]) by { assert !IsDigit(t[1]); }
  }

  lemma FindEitherAbsent(t: string, a: char, b: char)
    requires forall i :: 0 <= i < |t| ==> t[i] != a && t[i] != b
    ensures FindEither(t, a, b) == |t|
  {
  }

  lemma FindEitherAt(t: string, a: char, b: char, k: nat)
    requires k < |t| && (t[k] == a || t[k] == b)
    requires forall j :: 0 <= j < k ==> t[j] != a && t[j] != b
    ensures FindEither(t, a, b) == k
  {
  }

  /**
   * The value of an `<input type="number">` and of the `number | ''` state
   * that mirrors it: the browser reports '' or a number.
   */
  datatype Entry = Blank | Amount(value: int)

  /** `String(v)`, as a template literal interpolates it; an object is a plain object. */
  function ToText(v: JsValue): string {
    match v
    case Undefined => "undefined"
    case Null => "null"
    case Bool(b) => if b then "true" else "false"
    case Num(n) => IntToString(n)
    case NaN => "NaN"
    case Str(s) => s
    case Obj => "[object Object]"
  }
}
