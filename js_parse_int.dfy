/**
 * `Number.parseInt(text)` with no radix, as ECMAScript defines it (the global
 * `parseInt`, section 19.2.5 of ECMA-262), on integers rather than doubles:
 * skip leading white space, take one optional sign, switch to radix 16 after
 * a `0x`/`0X` prefix, then read the longest run of digits; no digit at all
 * gives NaN. `-0` and `0` are both the value 0, which is all the settings
 * form can tell apart (both are falsy).
 */
module JsParseInt {

  datatype NumberValue = NaN | Int(value: int)

  /** ECMAScript WhiteSpace and LineTerminator code points (the set TrimString removes). */
  predicate IsWhiteSpace(c: char) {
    || c == '\t' || c == '\U{000B}' || c == '\U{000C}' || c == ' ' || c == '\U{00A0}' || c == '\U{FEFF}'
    || c == '\n' || c == '\r' || c == '\U{2028}' || c == '\U{2029}'
    || c == '\U{1680}' || ('\U{2000}' <= c <= '\U{200A}') || c == '\U{202F}' || c == '\U{205F}' || c == '\U{3000}'
  }

  /** The digit value of `c` in radices up to 36; 36 for a character that is never a digit. */
  function DigitValue(c: char): (v: nat)
    ensures v <= 36
    ensures ('0' <= c <= '9') <==> v < 10
  {
    if '0' <= c <= '9' then c as int - '0' as int
    else if 'a' <= c <= 'z' then c as int - 'a' as int + 10
    else if 'A' <= c <= 'Z' then c as int - 'A' as int + 10
    else 36
  }

  predicate IsDigit(c: char, radix: nat) {
    DigitValue(c) < radix
  }

  /** `s` without its leading white space. */
  function TrimStart(s: string): (r: string)
    ensures |r| <= |s| && r == s[|s| - |r|..]
    ensures r == [] || !IsWhiteSpace(r[0])
    ensures forall i :: 0 <= i < |s| - |r| ==> IsWhiteSpace(s[i])
  {
    if s != [] && IsWhiteSpace(s[0]) then TrimStart(s[1..]) else s
  }

  /** The length of the longest prefix of `s` made of radix-`radix` digits. */
  function DigitRunLength(s: string, radix: nat): (n: nat)
    ensures n <= |s|
    ensures forall i :: 0 <= i < n ==> IsDigit(s[i], radix)
    ensures n < |s| ==> !IsDigit(s[n], radix)
  {
    if s != [] && IsDigit(s[0], radix) then 1 + DigitRunLength(s[1..], radix) else 0
  }

  /** The number the digit string `ds` denotes in radix `radix`, most significant digit first. */
  function ValueOf(ds: string, radix: nat): int
    requires forall i :: 0 <= i < |ds| ==> IsDigit(ds[i], radix)
  {
    if ds == [] then 0 else ValueOf(ds[..|ds| - 1], radix) * radix + DigitValue(ds[|ds| - 1])
  }

  /** The digits at the head of `body`, or NaN when there are none. */
  function ParseDigits(body: string, radix: nat): NumberValue {
    var end := DigitRunLength(body, radix);
    if end == 0 then NaN else Int(ValueOf(body[..end], radix))
  }

  /** Radix 16 after a `0x`/`0X` prefix, radix 10 otherwise. */
  function ParseUnsigned(s: string): NumberValue {
    if |s| >= 2 && s[0] == '0' && (s[1] == 'x' || s[1] == 'X') then ParseDigits(s[2..], 16) else ParseDigits(s, 10)
  }

  function Negate(v: NumberValue): NumberValue {
    if v.NaN? then NaN else Int(-v.value)
  }

  /** One optional `+` or `-` ahead of the unsigned part. */
  function ParseSigned(s: string): NumberValue {
    if s != [] && s[0] == '-' then Negate(ParseUnsigned(s[1..]))
    else if s != [] && s[0] == '+' then ParseUnsigned(s[1..])
    else ParseUnsigned(s)
  }

  /** `Number.parseInt(text)` without a radix; text with nothing in it, such as a cleared input, is NaN. */
  function ParseInt(text: string): (r: NumberValue)
    ensures text == [] ==> r == NaN
  {
    ParseSigned(TrimStart(text))
  }

  /** The decimal digits of `n` without leading zeros, as JavaScript's `String(n)` writes them. */
  function Digits(n: nat): (s: string)
    ensures |s| >= 1
    ensures forall i :: 0 <= i < |s| ==> '0' <= s[i] <= '9'
    ensures s[0] == '0' ==> n == 0 && |s| == 1
  {
    if n < 10 then [('0' as int + n) as char] else Digits(n / 10) + [('0' as int + n % 10) as char]
  }

  /** `String(n)` for an integer `n` (exact for |n| below 10^21, where JavaScript stops writing plain digits). */
  function Numeral(n: int): string {
    if n < 0 then "-" + Digits(-n) else Digits(n)
  }

  lemma {:induction false} ValueOfDigits(n: nat)
    ensures ValueOf(Digits(n), 10) == n
  {
    if n >= 10 {
      var prefix := Digits(n / 10);
      var last := ('0' as int + n % 10) as char;
      assert Digits(n) == prefix + [last];
      assert (prefix + [last])[..|prefix|] == prefix;
      ValueOfDigits(n / 10);
    }
  }

  /** Reading stops at the first character that is not a digit, so `String(n)` followed by such a character parses back to `n`. */
  lemma {:induction false} ParseIntNumeral(n: int, rest: string)
    requires rest == [] || !IsDigit(rest[0], 10)
    requires n == 0 && rest != [] ==> rest[0] != 'x' && rest[0] != 'X'
    ensures ParseInt(Numeral(n) + rest) == Int(n)
  {
    if n < 0 {
      ParseIntNegative(-n, rest);
    } else {
      ParseIntNonNegative(n, rest);
    }
  }

  lemma {:induction false} ParseIntNegative(m: nat, rest: string)
    requires rest == [] || !IsDigit(rest[0], 10)
    requires m == 0 && rest != [] ==> rest[0] != 'x' && rest[0] != 'X'
    ensures ParseInt("-" + Digits(m) + rest) == Int(-(m as int))
  {
    var unsigned := Digits(m) + rest;
    assert "-" + Digits(m) + rest == ['-'] + unsigned;
    ParseUnsignedDigits(m, rest);
    ParseIntMinus(['-'] + unsigned, unsigned);
  }

  lemma {:induction false} ParseIntNonNegative(m: nat, rest: string)
    requires rest == [] || !IsDigit(rest[0], 10)
    requires m == 0 && rest != [] ==> rest[0] != 'x' && rest[0] != 'X'
    ensures ParseInt(Digits(m) + rest) == Int(m)
  {
    ParseUnsignedDigits(m, rest);
    ParseIntPlain(Digits(m) + rest);
  }

  lemma {:induction false} ParseIntMinus(text: string, u: string)
    requires text == ['-'] + u
    ensures ParseInt(text) == Negate(ParseUnsigned(u))
  {
    NotWhiteSpace(text[0]);
    TrimStartKeeps(text);
    ParseSignedMinus(u);
  }

  lemma {:induction false} ParseIntPlain(u: string)
    requires u != [] && '0' <= u[0] <= '9'
    ensures ParseInt(u) == ParseUnsigned(u)
  {
    NotWhiteSpace(u[0]);
    TrimStartKeeps(u);
    ParseSignedUnsigned(u);
  }

  lemma {:induction false} ParseSignedMinus(u: string)
    ensures ParseSigned(['-'] + u) == Negate(ParseUnsigned(u))
  {
    assert (['-'] + u)[1..] == u;
  }

  lemma {:induction false} ParseSignedUnsigned(u: string)
    requires u == [] || (u[0] != '-' && u[0] != '+')
    ensures ParseSigned(u) == ParseUnsigned(u)
  {
  }

  lemma {:induction false} NotWhiteSpace(c: char)
    requires c == '-' || '0' <= c <= '9'
    ensures !IsWhiteSpace(c)
  {
  }

  lemma {:induction false} TrimStartKeeps(s: string)
    requires s == [] || !IsWhiteSpace(s[0])
    ensures TrimStart(s) == s
  {
  }

  lemma {:induction false} ParseUnsignedDigits(m: nat, rest: string)
    requires rest == [] || !IsDigit(rest[0], 10)
    requires m == 0 && rest != [] ==> rest[0] != 'x' && rest[0] != 'X'
    ensures ParseUnsigned(Digits(m) + rest) == Int(m)
  {
    var ds := Digits(m);
    var unsigned := ds + rest;
    assert |unsigned| >= 2 && unsigned[0] == '0' ==> unsigned[1] == rest[0];
    DigitRunOfDigits(ds, rest);
    assert unsigned[..|ds|] == ds;
    ValueOfDigits(m);
  }

  /** A run of decimal digits ends exactly where the first non-digit starts. */
  lemma {:induction false} DigitRunOfDigits(ds: string, rest: string)
    requires forall i :: 0 <= i < |ds| ==> '0' <= ds[i] <= '9'
    requires rest == [] || !IsDigit(rest[0], 10)
    ensures DigitRunLength(ds + rest, 10) == |ds|
  {
    if ds == [] {
      assert ds + rest == rest;
    } else {
      assert (ds + rest)[0] == ds[0];
      assert (ds + rest)[1..] == ds[1..] + rest;
      DigitRunOfDigits(ds[1..], rest);
    }
  }

  /** Leading white space never changes what `parseInt` reads. */
  lemma {:induction false} ParseIntSkipsWhiteSpace(space: string, text: string)
    requires forall i :: 0 <= i < |space| ==> IsWhiteSpace(space[i])
    ensures ParseInt(space + text) == ParseInt(text)
  {
    TrimStartSkips(space, text);
  }

  lemma {:induction false} TrimStartSkips(space: string, text: string)
    requires forall i :: 0 <= i < |space| ==> IsWhiteSpace(space[i])
    ensures TrimStart(space + text) == TrimStart(text)
  {
    if space != [] {
      assert IsWhiteSpace((space + text)[0]);
      assert (space + text)[1..] == space[1..] + text;
      assert TrimStart(space + text) == TrimStart(space[1..] + text);
      assert forall i :: 0 <= i < |space| - 1 ==> IsWhiteSpace(space[1..][i]) by {
        forall i | 0 <= i < |space| - 1 ensures IsWhiteSpace(space[1..][i]) {
          assert space[1..][i] == space[i + 1];
        }
      }
      TrimStartSkips(space[1..], text);
    } else {
      assert space + text == text;
    }
  }
}
