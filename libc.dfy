/**
 * The pieces of the C library the shell relies on: NUL-terminated strings,
 * `atoi` (ISO C11 section 7.22.1.2, with `isspace` from section 7.4.1.10),
 * `%d` formatting, and the truncation `snprintf` applies to a bounded buffer.
 */
module LibC {

  const NUL: char := '\0'

  /** The C string a character buffer holds: its characters up to the first NUL. */
  function CString(s: string): (c: string)
    ensures c <= s
    ensures NUL !in c
    ensures |c| < |s| ==> s[|c|] == NUL
  {
    if s == [] || s[0] == NUL then [] else [s[0]] + CString(s[1..])
  }

  /** A buffer holding `t` followed by a NUL holds exactly the C string `t`, whatever comes after. */
  lemma {:induction false} CStringOfTerminated(t: string, rest: string)
    requires NUL !in t
    ensures CString(t + [NUL] + rest) == t
  {
    if t != [] {
      assert t[0] in t;
      assert (t + [NUL] + rest)[1..] == t[1..] + [NUL] + rest;
      CStringOfTerminated(t[1..], rest);
    }
  }

  /** A string without NUL characters is its own C string. */
  lemma {:induction false} CStringOfPlain(s: string)
    requires NUL !in s
    ensures CString(s) == s
  {
    if s != [] {
      assert s[0] in s;
      CStringOfPlain(s[1..]);
    }
  }

  /** The white-space characters of the "C" locale. */
  predicate IsSpace(c: char)
  {
    c == ' ' || c == '\t' || c == '\n' || c == '\U{000B}' || c == '\U{000C}' || c == '\r'
  }

  predicate IsDigit(c: char)
  {
    '0' <= c <= '9'
  }

  /** The string that is left once leading white space is dropped. */
  function SkipSpace(s: string): (r: string)
    ensures |r| <= |s| && r == s[|s| - |r|..]
    ensures r == [] || !IsSpace(r[0])
  {
    if s != [] && IsSpace(s[0]) then SkipSpace(s[1..]) else s
  }

  /** Length of the longest run of decimal digits at the start of `s`. */
  function DigitRun(s: string): (k: nat)
    ensures k <= |s|
    ensures forall i :: 0 <= i < k ==> IsDigit(s[i])
    ensures k == |s| || !IsDigit(s[k])
  {
    if s != [] && IsDigit(s[0]) then 1 + DigitRun(s[1..]) else 0
  }

  function DigitValue(c: char): nat
    requires IsDigit(c)
  {
    c as int - '0' as int
  }

  /** Value of a string of decimal digits, most significant digit first. */
  function DigitsValue(d: string): nat
    requires forall i :: 0 <= i < |d| ==> IsDigit(d[i])
  {
    if d == [] then 0 else 10 * DigitsValue(d[..|d| - 1]) + DigitValue(d[|d| - 1])
  }

  /** Value of the digits at the start of `s`; 0 when there are none. */
  function Magnitude(s: string): nat
  {
    DigitsValue(s[..DigitRun(s)])
  }

  /** Where `atoi` looks for digits: after leading white space and an optional sign. */
  function DigitsStart(s: string): (u: string)
    ensures |u| <= |s| && u == s[|s| - |u|..]
  {
    var t := SkipSpace(s);
    if t != [] && (t[0] == '+' || t[0] == '-') then t[1..] else t
  }

  /**
   * `atoi`: skip leading white space, take an optional sign and then the longest
   * run of decimal digits. Text with no digits there converts to 0.
   */
  function Atoi(s: string): (r: int)
    ensures r < 0 ==> SkipSpace(s) != [] && SkipSpace(s)[0] == '-'
  {
    var t := SkipSpace(s);
    if t != [] && (t[0] == '+' || t[0] == '-') then
      var m: int := Magnitude(t[1..]);
      if t[0] == '-' then -m else m
    else
      Magnitude(t)
  }

  function DigitChar(d: nat): (c: char)
    requires d < 10
    ensures IsDigit(c) && DigitValue(c) == d
  {
    ('0' as int + d) as char
  }

  /** The decimal numeral of a natural number, as `%d` prints it. */
  function NatToDecimal(n: nat): (s: string)
    ensures |s| > 0
    ensures forall i :: 0 <= i < |s| ==> IsDigit(s[i])
    ensures DigitsValue(s) == n
    ensures s[0] == '0' <==> n == 0
  {
    if n < 10 then [DigitChar(n)] else NatToDecimal(n / 10) + [DigitChar(n % 10)]
  }

  /** `%d`: a minus sign for negative numbers, then the numeral of the magnitude. */
  function IntToDecimal(i: int): (s: string)
    ensures s != [] && (s[0] == '-' <==> i < 0)
  {
    if i < 0 then "-" + NatToDecimal(-i) else NatToDecimal(i)
  }

  /** `%d` prints nothing but a sign and digits. */
  lemma DecimalCharacters(i: int)
    ensures forall c :: c in IntToDecimal(i) ==> c == '-' || IsDigit(c)
  {
    var digits := NatToDecimal(if i < 0 then -i else i);
    assert forall c :: c in digits ==> IsDigit(c);
  }

  lemma {:induction false} DigitRunOfNumeral(digits: string, rest: string)
    requires forall i :: 0 <= i < |digits| ==> IsDigit(digits[i])
    requires rest == [] || !IsDigit(rest[0])
    ensures DigitRun(digits + rest) == |digits|
  {
    if digits != [] {
      assert (digits + rest)[1..] == digits[1..] + rest;
      DigitRunOfNumeral(digits[1..], rest);
    }
  }

  /** `atoi` of text that starts with a digit is the value of its leading digits. */
  lemma AtoiUnsigned(s: string)
    requires s != [] && IsDigit(s[0])
    ensures Atoi(s) == Magnitude(s)
  {
    assert SkipSpace(s) == s;
  }

  /** `atoi` of text that starts with a minus sign is minus the value of the digits after it. */
  lemma AtoiNegative(s: string)
    requires s != [] && s[0] == '-'
    ensures Atoi(s) == -(Magnitude(s[1..]) as int)
  {
    assert SkipSpace(s) == s;
  }

  lemma MagnitudeOfNumeral(m: nat, rest: string)
    requires rest == [] || !IsDigit(rest[0])
    ensures Magnitude(NatToDecimal(m) + rest) == m
  {
    var digits := NatToDecimal(m);
    DigitRunOfNumeral(digits, rest);
    assert (digits + rest)[..|digits|] == digits;
  }

  /**
   * `atoi` reads back what `%d` prints, also when other text follows the numeral,
   * as long as that text does not start with a digit.
   */
  lemma AtoiOfDecimal(i: int, rest: string)
    requires rest == [] || !IsDigit(rest[0])
    ensures Atoi(IntToDecimal(i) + rest) == i
  {
    if i < 0 {
      var digits := NatToDecimal(-i);
      var s := "-" + digits + rest;
      assert s[1..] == digits + rest;
      MagnitudeOfNumeral(-i, rest);
      AtoiNegative(s);
    } else {
      var digits := NatToDecimal(i);
      var s := digits + rest;
      assert s[0] == digits[0];
      MagnitudeOfNumeral(i, rest);
      AtoiUnsigned(s);
    }
  }

  /** The size of what `atoi` returns is the value of the digits after the white space and the sign. */
  lemma AtoiMagnitude(s: string)
    ensures (if Atoi(s) < 0 then -Atoi(s) else Atoi(s)) == Magnitude(DigitsStart(s))
  {
  }

  /**
   * Text whose first character after leading white space and an optional sign
   * is not a digit converts to 0 (for example "x5", " -y7" or "port80").
   */
  lemma AtoiWithoutNumeral(s: string)
    requires var u := DigitsStart(s); u == [] || !IsDigit(u[0])
    ensures Atoi(s) == 0
  {
    assert DigitRun(DigitsStart(s)) == 0;
    AtoiMagnitude(s);
  }

  /** In particular, text that holds no digit at all converts to 0. */
  lemma AtoiWithoutDigits(s: string)
    requires forall i :: 0 <= i < |s| ==> !IsDigit(s[i])
    ensures Atoi(s) == 0
  {
    var u := DigitsStart(s);
    if u != [] {
      assert u[0] == s[|s| - |u|];
    }
    AtoiWithoutNumeral(s);
  }

  /**
   * What `snprintf` leaves in a buffer when the text may not exceed `max`
   * characters (the buffer's size less the slot for the NUL).
   */
  function Truncate(s: string, max: nat): (t: string)
    ensures t <= s
    ensures |t| == if |s| <= max then |s| else max
  {
    if |s| <= max then s else s[..max]
  }
}
