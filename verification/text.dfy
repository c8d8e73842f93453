/**
  The string conventions the application relies on: decimal rendering of
  whole numbers (template literals and `String(n)`), `padStart`, the
  leading-integer reading of `parseInt`, `trim`, and the ASCII
  letters-and-digits class of a regular expression.
*/
module Text {
  import opened Wrappers

  /** An ASCII decimal digit. */
  predicate IsDigit(c: char)
  {
    '0' <= c <= '9'
  }

  /** The value of a digit character. */
  function DigitValue(c: char): (r: nat)
    requires IsDigit(c)
    ensures r < 10
  {
    (c - '0') as nat
  }

  /** The digit character of a value below ten. */
  function DigitChar(d: nat): (r: char)
    requires d < 10
    ensures IsDigit(r) && DigitValue(r) == d
  {
    '0' + d as char
  }

  /** Every character is a decimal digit. */
  predicate AllDigits(s: string)
  {
    forall i :: 0 <= i < |s| ==> IsDigit(s[i])
  }

  /** The value a digit string denotes, most significant digit first; the
      empty string denotes 0. */
  function DigitsValue(s: string): nat
    requires AllDigits(s)
  {
    if |s| == 0 then 0 else DigitsValue(s[..|s| - 1]) * 10 + DigitValue(s[|s| - 1])
  }

  /** The decimal rendering of a whole number, without leading zeros. */
  function NatToString(n: nat): (r: string)
    ensures 0 < |r| && AllDigits(r)
    ensures |r| == 1 <==> n < 10
    decreases n
  {
    if n < 10 then [DigitChar(n)] else NatToString(n / 10) + [DigitChar(n % 10)]
  }

  /** Reading a rendered number back gives the number. */
  lemma {:induction false} NatToStringValue(n: nat)
    ensures DigitsValue(NatToString(n)) == n
    decreases n
  {
    var s := NatToString(n);
    if n >= 10 {
      NatToStringValue(n / 10);
      assert s[..|s| - 1] == NatToString(n / 10);
    }
  }

  /** The rendering of a number of two digits is exactly two characters long. */
  lemma TwoDigitLength(n: nat)
    requires 10 <= n < 100
    ensures |NatToString(n)| == 2
  {
    assert NatToString(n) == NatToString(n / 10) + [DigitChar(n % 10)];
  }

  /** The rendering of a number of four digits is exactly four characters long. */
  lemma FourDigitLength(n: nat)
    requires 1000 <= n < 10000
    ensures |NatToString(n)| == 4
  {
    assert NatToString(n) == NatToString(n / 10) + [DigitChar(n % 10)];
    assert NatToString(n / 10) == NatToString(n / 100) + [DigitChar(n / 10 % 10)];
    assert NatToString(n / 100) == NatToString(n / 1000) + [DigitChar(n / 100 % 10)];
  }

  /** `k` copies of `c`. */
  function Repeat(c: char, k: nat): (r: string)
    ensures |r| == k && forall i :: 0 <= i < k ==> r[i] == c
  {
    if k == 0 then [] else [c] + Repeat(c, k - 1)
  }

  /** `padStart`: `s` preceded by copies of `fill` up to length `n`; a string
      already that long is kept as it is. */
  function PadStart(s: string, n: nat, fill: char): (r: string)
    ensures |r| == if |s| >= n then |s| else n
    ensures r[|r| - |s|..] == s
    ensures forall i :: 0 <= i < |r| - |s| ==> r[i] == fill
  {
    if |s| >= n then s else Repeat(fill, n - |s|) + s
  }

  /** Leading zeros do not change the value of a digit string. */
  lemma {:induction false} LeadingZeros(k: nat, s: string)
    requires AllDigits(s)
    ensures AllDigits(Repeat('0', k) + s)
    ensures DigitsValue(Repeat('0', k) + s) == DigitsValue(s)
    decreases |s|
  {
    var z := Repeat('0', k);
    if |s| == 0 {
      assert z + s == z;
      ZerosValue(k);
    } else {
      var p := z + s;
      assert p[..|p| - 1] == z + s[..|s| - 1];
      LeadingZeros(k, s[..|s| - 1]);
    }
  }

  /** A string of zeros denotes 0. */
  lemma {:induction false} ZerosValue(k: nat)
    ensures AllDigits(Repeat('0', k))
    ensures DigitsValue(Repeat('0', k)) == 0
  {
    if k > 0 {
      var z := Repeat('0', k);
      assert z[..|z| - 1] == Repeat('0', k - 1);
      ZerosValue(k - 1);
    }
  }

  /** Zero-padding a digit string keeps its value. */
  lemma PaddedDigits(s: string, width: nat)
    requires AllDigits(s)
    ensures AllDigits(PadStart(s, width, '0'))
    ensures DigitsValue(PadStart(s, width, '0')) == DigitsValue(s)
  {
    if |s| < width {
      LeadingZeros(width - |s|, s);
    }
  }

  /** A zero-padded rendering still reads back as the number. */
  lemma PaddedValue(n: nat, width: nat)
    ensures AllDigits(PadStart(NatToString(n), width, '0'))
    ensures DigitsValue(PadStart(NatToString(n), width, '0')) == n
  {
    NatToStringValue(n);
    PaddedDigits(NatToString(n), width);
  }

  /** The last `k` characters of a string, or the whole string when it is
      shorter (`slice(-k)`). */
  function TakeLast(s: string, k: nat): (r: string)
    ensures |r| == if |s| <= k then |s| else k
    ensures r == s[|s| - |r|..]
  {
    if |s| <= k then s else s[|s| - k..]
  }

  /** Two digit characters denote ten times the first plus the second. */
  lemma PairValue(a: nat, b: nat)
    requires a < 10 && b < 10
    ensures AllDigits([DigitChar(a), DigitChar(b)])
    ensures DigitsValue([DigitChar(a), DigitChar(b)]) == a * 10 + b
  {
    var t := [DigitChar(a), DigitChar(b)];
    assert t[..1] == [DigitChar(a)];
    assert DigitsValue(t[..1]) == a by {
      assert t[..1][..0] == [];
    }
    assert DigitsValue(t) == DigitsValue(t[..1]) * 10 + DigitValue(t[1]);
  }

  /** The tens and units of `n` make up `n % 100`, and dropping two digits is
      dropping one twice. */
  lemma TensAndUnits(n: nat)
    ensures n / 10 / 10 == n / 100
    ensures n / 10 % 10 * 10 + n % 10 == n % 100
  {
    var q, r := n / 100, n % 100;
    var d, u := r / 10, r % 10;
    assert n == 10 * (10 * q + d) + u;
    assert n / 10 == 10 * q + d;
  }

  /** A rendering of ten or more is the rendering of the number without its
      last digit, followed by that digit. */
  lemma TwoDigitSplit(m: nat)
    requires m >= 10
    ensures NatToString(m) == NatToString(m / 10) + [DigitChar(m % 10)]
  {
  }

  /** The last two characters of a text ending in two given characters. */
  lemma LastTwoOf(hi: string, c1: char, c2: char)
    ensures TakeLast((hi + [c1]) + [c2], 2) == [c1, c2]
  {
    var s := (hi + [c1]) + [c2];
    var tail := s[|s| - 2..];
    assert |tail| == 2 && tail[0] == c1 && tail[1] == c2;
    assert tail == [c1, c2];
    assert TakeLast(s, 2) == tail;
  }

  /** From 100 on, a rendering is the rendering of the hundreds followed by
      the tens and units digits. */
  lemma HundredsSplit(n: nat)
    requires n >= 100
    ensures NatToString(n) == (NatToString(n / 100) + [DigitChar(n / 10 % 10)]) + [DigitChar(n % 10)]
  {
    TensAndUnits(n);
    TwoDigitSplit(n);
    TwoDigitSplit(n / 10);
  }

  /** The last two digits of a rendering denote the number modulo 100. */
  lemma LastTwoDigits(n: nat)
    ensures AllDigits(TakeLast(NatToString(n), 2))
    ensures DigitsValue(TakeLast(NatToString(n), 2)) == n % 100
  {
    if n >= 100 {
      var a, b := n / 10 % 10, n % 10;
      HundredsSplit(n);
      LastTwoOf(NatToString(n / 100), DigitChar(a), DigitChar(b));
      PairValue(a, b);
      TensAndUnits(n);
    } else {
      var s := NatToString(n);
      NatToStringValue(n);
      if n >= 10 {
        TwoDigitLength(n);
      }
      assert TakeLast(s, 2) == s;
    }
  }



  /** The characters `trim` and `parseInt` skip: the ASCII controls from tab
      to carriage return, the byte-order mark, the line and paragraph
      separators, and every space separator of Unicode category Zs (space,
      no-break space, Ogham space mark, the spaces from en quad to hair
      space, narrow no-break space, medium mathematical space, ideographic
      space). */
  predicate IsWhitespace(c: char)
  {
    || '\t' <= c <= '\r'
    || c == '\U{FEFF}' || c == '\U{2028}' || c == '\U{2029}'
    || c == ' ' || c == '\U{00A0}' || c == '\U{1680}' || '\U{2000}' <= c <= '\U{200A}'
    || c == '\U{202F}' || c == '\U{205F}' || c == '\U{3000}'
  }

  /** The string without its leading whitespace. */
  function TrimStart(s: string): (r: string)
    ensures |r| <= |s| && r == s[|s| - |r|..]
    ensures |r| > 0 ==> !IsWhitespace(r[0])
    ensures forall i :: 0 <= i < |s| - |r| ==> IsWhitespace(s[i])
  {
    if |s| > 0 && IsWhitespace(s[0]) then TrimStart(s[1..]) else s
  }

  /** The string without its trailing whitespace. */
  function TrimEnd(s: string): (r: string)
    ensures |r| <= |s| && r == s[..|r|]
    ensures |r| > 0 ==> !IsWhitespace(r[|r| - 1])
    ensures forall i :: |r| <= i < |s| ==> IsWhitespace(s[i])
  {
    if |s| > 0 && IsWhitespace(s[|s| - 1]) then TrimEnd(s[..|s| - 1]) else s
  }

  /** `trim`: leading and trailing whitespace removed. */
  function Trim(s: string): string
  {
    TrimEnd(TrimStart(s))
  }

  /** The trimmed string is empty exactly when every character is whitespace. */
  lemma TrimEmpty(s: string)
    ensures |Trim(s)| == 0 <==> forall i :: 0 <= i < |s| ==> IsWhitespace(s[i])
  {
    var a := TrimStart(s);
    if |a| > 0 {
      assert !IsWhitespace(a[0]);
      assert a[0] == s[|s| - |a|];
    }
  }

  /** An ASCII letter or digit, the class `[a-zA-Z0-9]`. */
  predicate IsAlnum(c: char)
  {
    'a' <= c <= 'z' || 'A' <= c <= 'Z' || IsDigit(c)
  }

  /** The string with every character outside `[a-zA-Z0-9]` removed. */
  function KeepAlnum(s: string): (r: string)
    ensures |r| <= |s|
    ensures forall i :: 0 <= i < |r| ==> IsAlnum(r[i])
  {
    if |s| == 0 then []
    else (if IsAlnum(s[0]) then [s[0]] else []) + KeepAlnum(s[1..])
  }

  /** Removing characters distributes over concatenation, so the kept
      characters stay in their order. */
  lemma {:induction false} KeepAlnumAppend(a: string, b: string)
    ensures KeepAlnum(a + b) == KeepAlnum(a) + KeepAlnum(b)
    decreases |a|
  {
    if |a| > 0 {
      assert (a + b)[1..] == a[1..] + b;
      KeepAlnumAppend(a[1..], b);
    } else {
      assert a + b == b;
    }
  }

  /** A character is kept exactly when it is a letter or digit of the input. */
  lemma {:induction false} KeepAlnumMembers(s: string, c: char)
    ensures c in KeepAlnum(s) <==> c in s && IsAlnum(c)
    decreases |s|
  {
    if |s| > 0 {
      KeepAlnumMembers(s[1..], c);
      assert s == [s[0]] + s[1..];
    }
  }

  /** A string of letters and digits is kept whole. */
  lemma {:induction false} KeepAlnumIdentity(s: string)
    requires forall i :: 0 <= i < |s| ==> IsAlnum(s[i])
    ensures KeepAlnum(s) == s
    decreases |s|
  {
    if |s| > 0 {
      KeepAlnumIdentity(s[1..]);
      assert s == [s[0]] + s[1..];
    }
  }

  /** The longest prefix of digits. */
  function DigitRun(s: string): (r: string)
    ensures AllDigits(r) && |r| <= |s| && r == s[..|r|]
    ensures |r| < |s| ==> !IsDigit(s[|r|])
  {
    if |s| > 0 && IsDigit(s[0]) then [s[0]] + DigitRun(s[1..]) else []
  }

  /** The text after an optional leading sign. */
  function Unsigned(u: string): string
  {
    if |u| > 0 && (u[0] == '+' || u[0] == '-') then u[1..] else u
  }

  /** `parseInt` with no radix on a decimal input: leading whitespace is
      skipped, an optional sign is read, then the longest run of digits;
      the rest of the string is ignored.  With no digit the result is
      `None` (the source's NaN). */
  function ParseInt(s: string): Option<int>
  {
    ParseSigned(TrimStart(s))
  }

  /** The reading of an input whose leading whitespace is already skipped. */
  function ParseSigned(u: string): Option<int>
  {
    var digits := DigitRun(Unsigned(u));
    if |digits| == 0 then None
    else if u[0] == '-' then Some(-(DigitsValue(digits) as int))
    else Some(DigitsValue(digits))
  }

  /** The decimal rendering of a signed integer. */
  function IntToString(n: int): (r: string)
    ensures 0 < |r|
  {
    if n < 0 then "-" + NatToString(-n) else NatToString(n)
  }

  /** The digit run of a digit string followed by something that is not a
      digit is that string. */
  lemma {:induction false} DigitRunStops(s: string, rest: string)
    requires AllDigits(s)
    requires |rest| == 0 || !IsDigit(rest[0])
    ensures DigitRun(s + rest) == s
    decreases |s|
  {
    if |s| == 0 {
      assert s + rest == rest;
    } else {
      assert (s + rest)[1..] == s[1..] + rest;
      DigitRunStops(s[1..], rest);
    }
  }

  /** A string that does not start with whitespace is not trimmed. */
  lemma NothingToTrim(s: string)
    requires |s| > 0 && !IsWhitespace(s[0])
    ensures TrimStart(s) == s
  {
  }

  /** An unsigned decimal input is read as the value of its digit run. */
  lemma ParseUnsigned(x: string)
    requires |x| > 0 && IsDigit(x[0])
    ensures ParseInt(x) == Some(DigitsValue(DigitRun(x)))
  {
    NothingToTrim(x);
    assert Unsigned(x) == x;
  }

  /** A minus sign followed by digits is read as the negated digit run. */
  lemma ParseNegative(x: string)
    requires |x| > 0 && IsDigit(x[0])
    ensures ParseInt("-" + x) == Some(-(DigitsValue(DigitRun(x)) as int))
  {
    var u := "-" + x;
    NothingToTrim(u);
    assert u[1..] == x;
    SignedMinus(u, x);
  }

  /** After a minus sign the digit run is negated. */
  lemma SignedMinus(u: string, x: string)
    requires |u| > 0 && u[0] == '-' && Unsigned(u) == x && |DigitRun(x)| > 0
    ensures ParseSigned(u) == Some(-(DigitsValue(DigitRun(x)) as int))
  {
  }

  /** The digits of a rendering followed by text that does not start with a
      digit read back as the number. */
  lemma DigitsThenRest(m: nat, rest: string)
    requires |rest| == 0 || !IsDigit(rest[0])
    ensures var body := NatToString(m) + rest;
      |body| > 0 && IsDigit(body[0]) && DigitsValue(DigitRun(body)) == m
  {
    var s := NatToString(m);
    NatToStringValue(m);
    DigitRunStops(s, rest);
    assert (s + rest)[0] == s[0];
  }

  /** A minus sign followed by the digits of `-n` reads as `n`. */
  lemma NegativeReading(n: int, body: string, str: string)
    requires n < 0
    requires |body| > 0 && IsDigit(body[0]) && DigitsValue(DigitRun(body)) == -n
    requires str == "-" + body
    ensures ParseInt(str) == Some(n)
  {
    ParseNegative(body);
  }

  /** A rendered negative integer followed by `rest` is a minus sign and
      a digit string whose reading is the magnitude. */
  lemma NegativeParts(n: int, rest: string)
    requires n < 0
    requires |rest| == 0 || !IsDigit(rest[0])
    ensures var body := NatToString(-n) + rest;
      IntToString(n) + rest == "-" + body &&
      |body| > 0 && IsDigit(body[0]) && DigitsValue(DigitRun(body)) == -n
  {
    DigitsThenRest(-n, rest);
  }

  /** The round trip for a negative integer. */
  lemma NegativeRoundTrip(n: int, rest: string)
    requires n < 0
    requires |rest| == 0 || !IsDigit(rest[0])
    ensures ParseInt(IntToString(n) + rest) == Some(n)
  {
    NegativeParts(n, rest);
    NegativeReading(n, NatToString(-n) + rest, IntToString(n) + rest);
  }

  /** Reading back a rendered integer, possibly followed by a fraction or any
      other text that does not start with a digit, gives the integer. */
  lemma ParseIntRoundTrip(n: int, rest: string)
    requires |rest| == 0 || !IsDigit(rest[0])
    ensures ParseInt(IntToString(n) + rest) == Some(n)
  {
    if n < 0 {
      NegativeRoundTrip(n, rest);
    } else {
      DigitsThenRest(n, rest);
      ParseUnsigned(NatToString(n) + rest);
    }
  }
}
