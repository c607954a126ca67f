/** The parts of the Arduino core `String` class and of the C library that the
    song text format relies on: `trim`, `indexOf`, `substring`, `startsWith`,
    `toInt` (which is `atol`), the constructors `String(int)`, `String(n, HEX)`
    and `String(n, BIN)`, and `strtol(s, nullptr, 16)`. */
module ArduinoString {
  import opened CInt

  /** C `isspace`: space, tab, newline, vertical tab, form feed, carriage return. */
  predicate IsSpace(c: char) { c == ' ' || '\t' <= c <= '\r' }

  predicate IsDigit(c: char) { '0' <= c <= '9' }

  predicate AllDigits(s: string) { forall i :: 0 <= i < |s| ==> IsDigit(s[i]) }

  function DigitValue(c: char): nat
    requires IsDigit(c)
  {
    c as int - '0' as int
  }

  function DigitChar(d: nat): char
    requires d < 10
  {
    ('0' as int + d) as char
  }

  predicate IsHexDigit(c: char) { IsDigit(c) || 'a' <= c <= 'f' || 'A' <= c <= 'F' }

  function HexDigitValue(c: char): nat
    requires IsHexDigit(c)
  {
    if IsDigit(c) then DigitValue(c)
    else if 'a' <= c <= 'f' then c as int - 'a' as int + 10
    else c as int - 'A' as int + 10
  }

  /** Lower-case hexadecimal digit, as `utoa` writes it. */
  function HexChar(d: nat): char
    requires d < 16
  {
    if d < 10 then DigitChar(d) else ('a' as int + d - 10) as char
  }

  // ---------------------------------------------------------------- trim

  /** Leading white space removed; `TrimLeftRemovesSpace` says what is kept. */
  function TrimLeft(s: string): (r: string)
    ensures |r| <= |s|
    ensures r == [] || !IsSpace(r[0])
  {
    if |s| > 0 && IsSpace(s[0]) then TrimLeft(s[1..]) else s
  }

  /** Trailing white space removed; `TrimRightRemovesSpace` says what is kept. */
  function TrimRight(s: string): (r: string)
    ensures |r| <= |s|
    ensures r == [] || !IsSpace(r[|r| - 1])
  {
    if |s| > 0 && IsSpace(s[|s| - 1]) then TrimRight(s[..|s| - 1]) else s
  }

  /** `TrimLeft` removes white space and nothing else: it keeps a suffix of
      the text, and every character before that suffix is white space. */
  lemma {:induction false} TrimLeftRemovesSpace(s: string)
    ensures var r := TrimLeft(s);
      r == s[|s| - |r|..] && forall i :: 0 <= i < |s| - |r| ==> IsSpace(s[i])
    decreases |s|
  {
    if |s| > 0 && IsSpace(s[0]) {
      TrimLeftRemovesSpace(s[1..]);
      var r := TrimLeft(s);
      forall i | 0 <= i < |s| - |r|
        ensures IsSpace(s[i])
      {
        if i > 0 {
          assert s[i] == s[1..][i - 1];
        }
      }
    }
  }

  /** `TrimRight` removes white space and nothing else: it keeps a prefix of
      the text, and every character after that prefix is white space. */
  lemma {:induction false} TrimRightRemovesSpace(s: string)
    ensures var r := TrimRight(s);
      r == s[..|r|] && forall i :: |r| <= i < |s| ==> IsSpace(s[i])
    decreases |s|
  {
    if |s| > 0 && IsSpace(s[|s| - 1]) {
      TrimRightRemovesSpace(s[..|s| - 1]);
      var r := TrimRight(s);
      forall i | |r| <= i < |s|
        ensures IsSpace(s[i])
      {
        if i < |s| - 1 {
          assert s[i] == s[..|s| - 1][i];
        }
      }
    }
  }

  /** `String::trim()`: leading and trailing white space removed. */
  function Trim(s: string): string
  {
    TrimRight(TrimLeft(s))
  }

  /** A string that neither starts nor ends with white space is its own trim. */
  predicate Unpadded(s: string)
  {
    s == [] || (!IsSpace(s[0]) && !IsSpace(s[|s| - 1]))
  }

  lemma TrimUnpadded(s: string)
    requires Unpadded(s)
    ensures Trim(s) == s
  {
  }

  // ---------------------------------------------------------------- search

  /** `String::indexOf(c)`: the first position of `c`, or -1. */
  function IndexOf(s: string, c: char): (r: int)
    ensures -1 <= r < |s|
    ensures r == -1 <==> c !in s
    ensures r >= 0 ==> s[r] == c
  {
    if |s| == 0 then -1
    else if s[0] == c then 0
    else
      var k := IndexOf(s[1..], c);
      if k == -1 then -1 else k + 1
  }

  /** `indexOf` finds the first occurrence: nothing before it is `c`. */
  lemma {:induction false} IndexOfFirst(s: string, c: char)
    ensures IndexOf(s, c) >= 0 ==> c !in s[..IndexOf(s, c)]
    decreases |s|
  {
    if |s| > 0 && s[0] != c {
      IndexOfFirst(s[1..], c);
      var k := IndexOf(s[1..], c);
      if k >= 0 {
        assert s[..k + 1] == [s[0]] + s[1..][..k];
      }
    }
  }

  lemma IndexOfSplit(a: string, c: char, b: string)
    requires c !in a
    ensures IndexOf(a + [c] + b, c) == |a|
  {
    var s := a + [c] + b;
    assert s[|a|] == c;
    assert s[..|a|] == a;
    IndexOfFirst(s, c);
  }

  function StartsWith(s: string, prefix: string): bool
  {
    |prefix| <= |s| && s[..|prefix|] == prefix
  }

  /** `s.substring(0, pos)` where `pos` came from `indexOf`: a position of -1
      converts to a huge unsigned value, which `substring` clamps to the length. */
  function SubstringTo(s: string, pos: int): string
    requires -1 <= pos <= |s|
  {
    if pos < 0 then s else s[..pos]
  }

  /** `s.substring(left)`: empty when `left` is at or past the end. */
  function SubstringFrom(s: string, left: nat): string
  {
    if left >= |s| then [] else s[left..]
  }

  // ---------------------------------------------------------------- decimal

  /** The longest prefix of decimal digits. */
  function LeadingDigits(s: string): (r: string)
    ensures AllDigits(r) && |r| <= |s| && r == s[..|r|]
  {
    if |s| > 0 && IsDigit(s[0]) then [s[0]] + LeadingDigits(s[1..]) else []
  }

  /** Value of a string of decimal digits, most significant first. */
  function DecValue(s: string): nat
    requires AllDigits(s)
  {
    if s == [] then 0 else DecValue(s[..|s| - 1]) * 10 + DigitValue(s[|s| - 1])
  }

  /** `String::toInt()`, which is `atol`: leading white space is skipped, then an
      optional sign, then as many digits as follow. No digits give 0. The
      overflow of a 32-bit `long` is not modelled. */
  function ToInt(s: string): int
  {
    var t := TrimLeft(s);
    if |t| > 0 && t[0] == '-' then -(DecValue(LeadingDigits(t[1..])) as int)
    else if |t| > 0 && t[0] == '+' then DecValue(LeadingDigits(t[1..]))
    else DecValue(LeadingDigits(t))
  }

  /** Decimal rendering of a natural number without leading zeros. */
  function NatString(n: nat): (r: string)
    ensures |r| > 0 && AllDigits(r)
    decreases n
  {
    if n < 10 then [DigitChar(n)] else NatString(n / 10) + [DigitChar(n % 10)]
  }

  /** `String(n)` for a signed integer. */
  function IntString(n: int): (r: string)
    ensures |r| > 0
  {
    if n < 0 then "-" + NatString(-n) else NatString(n)
  }

  /** Every character of a decimal rendering is a digit or a minus sign. */
  predicate NumberChars(s: string)
  {
    forall i :: 0 <= i < |s| ==> IsDigit(s[i]) || s[i] == '-'
  }

  lemma IntStringShape(n: int)
    ensures NumberChars(IntString(n)) && IsDigit(IntString(n)[|IntString(n)| - 1])
    ensures n >= 0 ==> AllDigits(IntString(n))
    ensures IntString(n)[0] == '-' <==> n < 0
    ensures Unpadded(IntString(n))
  {
    var d := NatString(if n < 0 then -n else n);
    assert IsDigit(d[|d| - 1]) && IsDigit(d[0]);
  }

  lemma {:induction false} DecValueNatString(n: nat)
    ensures DecValue(NatString(n)) == n
    decreases n
  {
    if n >= 10 {
      DecValueNatString(n / 10);
      var s := NatString(n);
      assert s[..|s| - 1] == NatString(n / 10);
    }
  }

  lemma {:induction false} LeadingDigitsOfDigits(a: string, b: string)
    requires AllDigits(a)
    requires b == [] || !IsDigit(b[0])
    ensures LeadingDigits(a + b) == a
    decreases |a|
  {
    if a == [] {
      assert a + b == b;
    } else {
      assert (a + b)[1..] == a[1..] + b;
      LeadingDigitsOfDigits(a[1..], b);
    }
  }

  /** `atol` reads back exactly the number `String(n)` wrote, whatever
      non-digit text follows it. */
  lemma ToIntIntString(n: int, rest: string)
    requires rest == [] || !IsDigit(rest[0])
    ensures ToInt(IntString(n) + rest) == n
  {
    var s := IntString(n) + rest;
    IntStringShape(n);
    assert s[0] == IntString(n)[0];
    assert TrimLeft(s) == s;
    if n < 0 {
      assert s[1..] == NatString(-n) + rest;
      LeadingDigitsOfDigits(NatString(-n), rest);
      DecValueNatString(-n);
    } else {
      LeadingDigitsOfDigits(NatString(n), rest);
      DecValueNatString(n);
    }
  }

  // ---------------------------------------------------------------- hex and binary

  predicate AllHexDigits(s: string) { forall i :: 0 <= i < |s| ==> IsHexDigit(s[i]) }

  /** Value of a string of hexadecimal digits, most significant first. */
  function HexValue(s: string): nat
    requires AllHexDigits(s)
  {
    if s == [] then 0 else HexValue(s[..|s| - 1]) * 16 + HexDigitValue(s[|s| - 1])
  }

  /** The longest prefix of hexadecimal digits. */
  function LeadingHexDigits(s: string): (r: string)
    ensures AllHexDigits(r) && |r| <= |s| && r == s[..|r|]
  {
    if |s| > 0 && IsHexDigit(s[0]) then [s[0]] + LeadingHexDigits(s[1..]) else []
  }

  /** `strtol(s, nullptr, 16)` for a string that starts with "0x": the prefix is
      skipped, the following hex digits are read, and a value beyond LONG_MAX
      saturates to LONG_MAX. "0x" with no digit after it reads as 0. */
  function StrtolHex(s: string): int
    requires StartsWith(s, "0x")
  {
    var v := HexValue(LeadingHexDigits(s[2..]));
    if v > LONG_MAX then LONG_MAX else v
  }

  /** `String(n, HEX)`: lower-case hexadecimal without leading zeros. */
  function HexString(n: nat): (r: string)
    ensures |r| > 0 && AllHexDigits(r)
    decreases n
  {
    if n < 16 then [HexChar(n)] else HexString(n / 16) + [HexChar(n % 16)]
  }

  /** `String(n, BIN)`: binary without leading zeros. */
  function BinString(n: nat): (r: string)
    ensures |r| > 0
    ensures forall i :: 0 <= i < |r| ==> r[i] == '0' || r[i] == '1'
    decreases n
  {
    if n < 2 then [DigitChar(n)] else BinString(n / 2) + [DigitChar(n % 2)]
  }
}
