/**
 * The view of a command-line argument that the client's C code has: a NUL-terminated
 * character string read with `argv[i][k]`, classified with `isalpha` and converted with
 * `atoi`. Arguments are Dafny strings; reading past the last character yields the
 * terminator, as it does in C.
 */
module CString {

  /** The terminator every C string carries after its last character. */
  const NUL: char := '\0'

  /** `s[k]` as C reads it: the character itself, or the terminator at or past the end. */
  function CharAt(s: string, k: nat): char
  {
    if k < |s| then s[k] else NUL
  }

  /** `isalpha` in the C locale: an ASCII letter. */
  predicate IsAlpha(c: char)
  {
    'A' <= c <= 'Z' || 'a' <= c <= 'z'
  }

  /** `isdigit`: an ASCII decimal digit. */
  predicate IsDigit(c: char)
  {
    '0' <= c <= '9'
  }

  /** `isspace` in the C locale: blank, tab, newline, vertical tab, form feed, carriage return. */
  predicate IsSpace(c: char)
  {
    c == ' ' || c == '\t' || c == '\n' || c == '\U{000B}' || c == '\U{000C}' || c == '\r'
  }

  predicate AllDigits(s: string)
  {
    forall k :: 0 <= k < |s| ==> IsDigit(s[k])
  }

  predicate AllSpace(s: string)
  {
    forall k :: 0 <= k < |s| ==> IsSpace(s[k])
  }

  /** The white space `atoi` skips before the number: what is left is a suffix of `s`. */
  function SkipSpace(s: string): (t: string)
    ensures |t| <= |s| && t == s[|s| - |t|..]
  {
    if |s| > 0 && IsSpace(s[0]) then SkipSpace(s[1..]) else s
  }

  /** `atoi` skips exactly the longest prefix of white space. */
  lemma {:induction false} SkipSpaceSkipsSpace(s: string)
    ensures var t := SkipSpace(s);
      && (t == [] || !IsSpace(t[0]))
      && forall k :: 0 <= k < |s| - |t| ==> IsSpace(s[k])
  {
    if |s| > 0 && IsSpace(s[0]) {
      SkipSpaceSkipsSpace(s[1..]);
      forall k | 1 <= k < |s| - |SkipSpace(s)|
        ensures IsSpace(s[k])
      {
        assert s[k] == s[1..][k - 1];
      }
    }
  }

  /** The length of the longest prefix of `s` made of decimal digits. */
  function DigitRun(s: string): (n: nat)
    ensures n <= |s| && AllDigits(s[..n])
    ensures n < |s| ==> !IsDigit(s[n])
  {
    if |s| > 0 && IsDigit(s[0]) then 1 + DigitRun(s[1..]) else 0
  }

  function DigitValue(c: char): nat
    requires IsDigit(c)
  {
    c as int - '0' as int
  }

  function DigitChar(d: nat): char
    requires d < 10
  {
    ('0' as int + d) as char
  }

  /** The number a string of decimal digits denotes, most significant digit first. */
  function Value(digits: string): nat
    requires AllDigits(digits)
  {
    if digits == [] then 0
    else Value(digits[..|digits| - 1]) * 10 + DigitValue(digits[|digits| - 1])
  }

  /** Some character of `s` is a decimal digit. */
  predicate HasDigit(s: string)
  {
    s != [] && (IsDigit(s[0]) || HasDigit(s[1..]))
  }

  lemma {:induction false} NoDigitInSuffix(s: string, k: nat)
    requires k <= |s| && !HasDigit(s)
    ensures !HasDigit(s[k..])
  {
    if k > 0 {
      assert s[1..][k - 1..] == s[k..];
      NoDigitInSuffix(s[1..], k - 1);
    }
  }

  /** The number the leading digits of `s` denote; 0 when it has none. */
  function Magnitude(s: string): nat
  {
    Value(s[..DigitRun(s)])
  }

  /** The sign and digits `atoi` reads once the white space is skipped. */
  function ReadSigned(t: string): int
  {
    var sign := CharAt(t, 0);
    var rest := if sign == '-' || sign == '+' then t[1..] else t;
    var magnitude: int := Magnitude(rest);
    if sign == '-' then -magnitude else magnitude
  }

  /**
   * `atoi`: skip white space, read an optional sign, then the longest run of decimal
   * digits; no digits gives 0. The C result for values outside `int` is undefined and
   * is not modelled: the result here is unbounded.
   */
  function Atoi(s: string): (r: int)
    ensures !HasDigit(s) ==> r == 0
  {
    var t := SkipSpace(s);
    if HasDigit(s) then ReadSigned(t)
    else
      NoDigitInSuffix(s, |s| - |t|);
      if t != [] then NoDigitInSuffix(t, 1); ReadSigned(t) else ReadSigned(t)
  }

  /** The shortest decimal rendering of a natural number. */
  function Decimal(n: nat): (s: string)
    ensures |s| > 0 && AllDigits(s)
  {
    if n < 10 then [DigitChar(n)] else Decimal(n / 10) + [DigitChar(n % 10)]
  }

  lemma {:induction false} ValueOfDecimal(n: nat)
    ensures Value(Decimal(n)) == n
  {
    if n >= 10 {
      var s := Decimal(n);
      assert s[..|s| - 1] == Decimal(n / 10);
      ValueOfDecimal(n / 10);
    }
  }

  /**
   * `atoi` reads any numeral: leading white space, an optional `+` or `-`, then digits
   * (leading zeros included), stopping at the first character after them that is not a digit.
   */
  lemma AtoiReadsNumeral(space: string, sign: string, digits: string, rest: string)
    requires AllSpace(space)
    requires sign == "" || sign == "+" || sign == "-"
    requires digits != [] && AllDigits(digits)
    requires rest == [] || !IsDigit(rest[0])
    ensures Atoi(space + sign + digits + rest)
      == if sign == "-" then -(Value(digits) as int) else Value(digits)
  {
    var number := sign + (digits + rest);
    Regroup(space, sign, digits, rest);
    if sign == "" {
      assert number == digits + rest;
      AtoiReadsDigits(digits, rest);
    } else {
      assert number == [sign[0]] + (digits + rest);
      AtoiReadsSignThenDigits(sign[0], digits, rest);
    }
    AtoiAfterSpace(space, number);
  }

  lemma Regroup(a: string, b: string, c: string, d: string)
    ensures a + b + c + d == a + (b + (c + d))
  {
  }

  lemma AtoiReadsSignedDigits(sign: string, digits: string, rest: string)
    requires sign == "" || sign == "+" || sign == "-"
    requires digits != [] && AllDigits(digits)
    requires rest == [] || !IsDigit(rest[0])
    ensures (sign + digits + rest)[0] == if sign == "" then digits[0] else sign[0]
    ensures Atoi(sign + digits + rest) == if sign == "-" then -(Value(digits) as int) else Value(digits)
  {
    if sign == "" {
      assert sign + digits + rest == digits + rest;
      AtoiReadsDigits(digits, rest);
    } else {
      assert sign + digits + rest == [sign[0]] + (digits + rest);
      AtoiReadsSignThenDigits(sign[0], digits, rest);
    }
  }

  lemma AtoiReadsDigits(digits: string, rest: string)
    requires digits != [] && AllDigits(digits)
    requires rest == [] || !IsDigit(rest[0])
    ensures (digits + rest)[0] == digits[0]
    ensures Atoi(digits + rest) == Value(digits)
  {
    DigitRunOfDigitsThen(digits, rest);
    MagnitudeOfDigitsThen(digits, rest);
    AtoiUnsigned(digits + rest);
  }

  lemma AtoiReadsSignThenDigits(c: char, digits: string, rest: string)
    requires c == '+' || c == '-'
    requires digits != [] && AllDigits(digits)
    requires rest == [] || !IsDigit(rest[0])
    ensures Atoi([c] + (digits + rest)) == if c == '-' then -(Value(digits) as int) else Value(digits)
  {
    DigitRunOfDigitsThen(digits, rest);
    MagnitudeOfDigitsThen(digits, rest);
    AtoiSigned(c, digits + rest);
  }

  /**
   * `atoi` gives 0 when no digit follows the white space and the optional sign, as for a
   * word, a lone sign, a double sign or an empty argument.
   */
  lemma AtoiWithoutDigits(space: string, sign: string, rest: string)
    requires AllSpace(space)
    requires sign == "" || sign == "+" || sign == "-"
    requires rest == [] || !IsDigit(rest[0])
    requires sign == "" && rest != [] ==> !IsSpace(rest[0]) && rest[0] != '+' && rest[0] != '-'
    ensures Atoi(space + sign + rest) == 0
  {
    var number := sign + rest;
    assert space + sign + rest == space + number;
    SkipSpacePrefix(space, number);
    ReadWithoutDigits(sign, rest);
  }

  lemma ReadWithoutDigits(sign: string, rest: string)
    requires sign == "" || sign == "+" || sign == "-"
    requires rest == [] || !IsDigit(rest[0])
    requires sign == "" && rest != [] ==> rest[0] != '+' && rest[0] != '-'
    ensures ReadSigned(sign + rest) == 0
  {
    var number := sign + rest;
    if sign == "" {
      assert number == rest;
    } else {
      assert number[1..] == rest;
    }
  }

  /** The shortest decimal rendering of `n` reads back as `n`, with or without a minus. */
  lemma AtoiOfDecimal(n: nat, rest: string)
    requires rest == [] || !IsDigit(rest[0])
    ensures Atoi(Decimal(n) + rest) == n
    ensures Atoi("-" + Decimal(n) + rest) == -(n as int)
  {
    var d := Decimal(n);
    ValueOfDecimal(n);
    AtoiReadsDigits(d, rest);
    AtoiReadsSignedDigits("-", d, rest);
  }

  lemma AtoiAfterSpace(space: string, s: string)
    requires AllSpace(space)
    requires s == [] || !IsSpace(s[0])
    ensures Atoi(space + s) == Atoi(s)
  {
    SkipSpacePrefix(space, s);
    assert SkipSpace(s) == s;
  }

  lemma AtoiUnsigned(s: string)
    requires s != [] && IsDigit(s[0])
    ensures Atoi(s) == Magnitude(s)
  {
    assert SkipSpace(s) == s;
    assert CharAt(s, 0) == s[0];
  }

  lemma AtoiSigned(c: char, s: string)
    requires c == '+' || c == '-'
    ensures Atoi([c] + s) == if c == '-' then -(Magnitude(s) as int) else Magnitude(s)
  {
    var t := [c] + s;
    assert SkipSpace(t) == t;
    ReadSignThenDigits(c, s);
  }

  lemma ReadSignThenDigits(c: char, s: string)
    requires c == '+' || c == '-'
    ensures ReadSigned([c] + s) == if c == '-' then -(Magnitude(s) as int) else Magnitude(s)
  {
    var t := [c] + s;
    assert CharAt(t, 0) == c;
    assert t[1..] == s;
  }

  lemma {:induction false} SkipSpacePrefix(space: string, s: string)
    requires AllSpace(space)
    requires s == [] || !IsSpace(s[0])
    ensures SkipSpace(space + s) == s
  {
    if space == [] {
      assert space + s == s;
    } else {
      assert (space + s)[0] == space[0];
      assert (space + s)[1..] == space[1..] + s;
      SkipSpacePrefix(space[1..], s);
    }
  }

  lemma MagnitudeOfDigitsThen(d: string, rest: string)
    requires DigitRun(d + rest) == |d|
    ensures Magnitude(d + rest) == Value(d)
  {
    assert (d + rest)[..|d|] == d;
  }

  lemma {:induction false} DigitRunOfDigitsThen(d: string, rest: string)
    requires AllDigits(d)
    requires rest == [] || !IsDigit(rest[0])
    ensures DigitRun(d + rest) == |d|
  {
    if d != [] {
      assert (d + rest)[1..] == d[1..] + rest;
      DigitRunOfDigitsThen(d[1..], rest);
    } else {
      assert d + rest == rest;
    }
  }
}
