/** The string helpers of shared.h: `splitString`, `isIntValue`, both
    `tryGetInt` overloads, `tryParseInt` and `byteToBitMask`. */
module SharedStrings {
  import opened CInt
  import opened ArduinoString

  // ================================================================ splitString

  /** Number of occurrences of `d` in `s`. */
  function Count(s: string, d: char): nat
  {
    if s == [] then 0 else Count(s[..|s| - 1], d) + (if s[|s| - 1] == d then 1 else 0)
  }

  /** The pieces `splitString` produces, defined by how the text grows at its
      end: a delimiter opens a new empty piece, any other character extends
      the last piece. */
  function Split(s: string, d: char): (r: seq<string>)
    ensures |r| > 0
  {
    if s == [] then [[]]
    else
      var init := Split(s[..|s| - 1], d);
      var c := s[|s| - 1];
      if c == d then init + [[]] else init[..|init| - 1] + [init[|init| - 1] + [c]]
  }

  /** The pieces glued back together with the delimiter between them. */
  function Join(pieces: seq<string>, d: char): string
    requires |pieces| > 0
  {
    if |pieces| == 1 then pieces[0]
    else Join(pieces[..|pieces| - 1], d) + [d] + pieces[|pieces| - 1]
  }

  /** There is one more piece than there are delimiters. */
  lemma {:induction false} SplitCount(s: string, d: char)
    ensures |Split(s, d)| == Count(s, d) + 1
    decreases |s|
  {
    if s != [] {
      SplitCount(s[..|s| - 1], d);
    }
  }

  /** No piece contains the delimiter. */
  lemma {:induction false} SplitPiecesFree(s: string, d: char)
    ensures forall i :: 0 <= i < |Split(s, d)| ==> d !in Split(s, d)[i]
    decreases |s|
  {
    if s != [] {
      SplitPiecesFree(s[..|s| - 1], d);
    }
  }

  /** Appending an empty piece appends a delimiter to the joined text. */
  lemma JoinNewPiece(pieces: seq<string>, d: char)
    requires |pieces| > 0
    ensures Join(pieces + [[]], d) == Join(pieces, d) + [d]
  {
    assert (pieces + [[]])[..|pieces|] == pieces;
  }

  /** Extending the last piece extends the joined text. */
  lemma JoinExtendLast(pieces: seq<string>, d: char, c: char)
    requires |pieces| > 0
    ensures Join(pieces[..|pieces| - 1] + [pieces[|pieces| - 1] + [c]], d) == Join(pieces, d) + [c]
  {
    var q := pieces[..|pieces| - 1] + [pieces[|pieces| - 1] + [c]];
    if |pieces| > 1 {
      assert q[..|q| - 1] == pieces[..|pieces| - 1];
    }
  }

  /** Joining the pieces with the delimiter gives back the text. */
  lemma {:induction false} SplitJoin(s: string, d: char)
    ensures Join(Split(s, d), d) == s
    decreases |s|
  {
    if s != [] {
      var s' := s[..|s| - 1];
      var c := s[|s| - 1];
      SplitJoin(s', d);
      if c == d {
        JoinNewPiece(Split(s', d), d);
      } else {
        JoinExtendLast(Split(s', d), d, c);
      }
      assert s == s' + [c];
    }
  }

  lemma {:induction false} SplitFree(s: string, d: char)
    requires d !in s
    ensures Split(s, d) == [s]
    decreases |s|
  {
    if s != [] {
      assert d !in s[..|s| - 1];
      SplitFree(s[..|s| - 1], d);
      assert s[..|s| - 1] + [s[|s| - 1]] == s;
    }
  }

  /** One more character at the end: a delimiter opens a new piece, anything
      else extends the last one. */
  lemma SplitSnoc(s: string, c: char, d: char)
    ensures var init := Split(s, d);
      Split(s + [c], d) == if c == d then init + [[]] else init[..|init| - 1] + [init[|init| - 1] + [c]]
  {
    assert (s + [c])[..|s|] == s;
  }

  lemma ExtendLastPiece(A: seq<string>, B: seq<string>, c: char)
    requires |B| > 0
    ensures var I := A + B; I[..|I| - 1] + [I[|I| - 1] + [c]] == A + (B[..|B| - 1] + [B[|B| - 1] + [c]])
  {
  }

  /** Text around a delimiter splits into the pieces of each side. */
  lemma {:induction false} SplitAround(a: string, d: char, b: string)
    ensures Split(a + [d] + b, d) == Split(a, d) + Split(b, d)
    decreases |b|
  {
    if b == [] {
      SplitSnoc(a, d, d);
      assert a + [d] + b == a + [d];
    } else {
      var b' := b[..|b| - 1];
      var c := b[|b| - 1];
      assert a + [d] + b == (a + [d] + b') + [c];
      assert b == b' + [c];
      SplitAround(a, d, b');
      SplitSnoc(a + [d] + b', c, d);
      SplitSnoc(b', c, d);
      if c != d {
        ExtendLastPiece(Split(a, d), Split(b', d), c);
      }
    }
  }

  lemma {:induction false} CountPrefix(s: string, d: char, i: nat)
    requires i <= |s|
    ensures Count(s[..i], d) <= Count(s, d)
    decreases |s|
  {
    if i < |s| {
      assert s[..|s| - 1][..i] == s[..i];
      CountPrefix(s[..|s| - 1], d, i);
    } else {
      assert s[..i] == s;
    }
  }

  /** A delimiter at position `i` of `splitString`'s fill loop closes the open
      piece and opens an empty one. */
  lemma SplitFillDelimiter(data: string, d: char, i: nat, start: nat, done: seq<string>)
    requires start <= i < |data| && data[i] == d
    requires done + [data[start..i]] == Split(data[..i], d)
    ensures done + [data[start..i]] + [data[i + 1..i + 1]] == Split(data[..i + 1], d)
  {
    assert data[..i + 1] == data[..i] + [d];
    SplitSnoc(data[..i], d, d);
    assert data[i + 1..i + 1] == [];
  }

  /** Any other character at position `i` extends the open piece. */
  lemma SplitFillExtend(data: string, d: char, i: nat, start: nat, done: seq<string>)
    requires start <= i < |data| && data[i] != d
    requires done + [data[start..i]] == Split(data[..i], d)
    ensures done + [data[start..i + 1]] == Split(data[..i + 1], d)
  {
    var c := data[i];
    var open := data[start..i];
    var init := done + [open];
    assert data[..i + 1] == data[..i] + [c];
    SplitSnoc(data[..i], c, d);
    assert init[..|init| - 1] == done && init[|init| - 1] == open;
    assert data[start..i + 1] == open + [c];
  }

  /** A prefix of the text has no more pieces than the text. */
  lemma SplitPrefixLength(s: string, d: char, i: nat)
    requires i <= |s|
    ensures |Split(s[..i], d)| <= |Split(s, d)|
  {
    SplitCount(s[..i], d);
    SplitCount(s, d);
    CountPrefix(s, d, i);
  }

  /** The counting pass of `splitString`: the number of delimiters. */
  method CountDelimiters(data: string, delimiter: char) returns (count: nat)
    ensures count == Count(data, delimiter)
  {
    count := 0;
    for i := 0 to |data|
      invariant count == Count(data[..i], delimiter)
    {
      assert data[..i + 1][..i] == data[..i];
      if data[i] == delimiter {
        count := count + 1;
      }
    }
    assert data[..|data|] == data;
  }

  /** `splitString(data, delimiter, size)`: counts the delimiters, allocates
      one more string than that, and fills it in a second pass. The returned
      array's length is the `size` out-parameter. */
  method SplitString(data: string, delimiter: char) returns (result: array<string>)
    ensures fresh(result)
    ensures result[..] == Split(data, delimiter)
  {
    var count := CountDelimiters(data, delimiter);
    SplitCount(data, delimiter);
    result := new string[count + 1];
    var startIndex := 0;
    var resultIndex := 0;
    var i := 0;
    while i <= |data|
      invariant 0 <= i <= |data| + 1
      invariant result.Length == |Split(data, delimiter)|
      invariant i <= |data| ==> startIndex <= i && resultIndex < result.Length
      invariant i <= |data| ==> result[..resultIndex] + [data[startIndex..i]] == Split(data[..i], delimiter)
      invariant i == |data| + 1 ==> result[..] == Split(data, delimiter)
    {
      ghost var done := result[..resultIndex];
      if i == |data| || data[i] == delimiter {
        result[resultIndex] := data[startIndex..i];
        assert result[..resultIndex + 1] == done + [data[startIndex..i]];
        if i < |data| {
          SplitFillDelimiter(data, delimiter, i, startIndex, done);
          SplitPrefixLength(data, delimiter, i + 1);
        } else {
          assert data[..i] == data;
        }
        startIndex := i + 1;
        resultIndex := resultIndex + 1;
      } else {
        SplitFillExtend(data, delimiter, i, startIndex, done);
      }
      i := i + 1;
    }
  }

  // ================================================================ isIntValue

  /** The scan of `isIntValue` from position `i` on: every character a digit. */
  function DigitsFrom(s: string, i: nat): bool
    decreases |s| - i
  {
    i >= |s| || (IsDigit(s[i]) && DigitsFrom(s, i + 1))
  }

  /** `isIntValue(s)`: non-empty, an optional leading minus that is not the
      whole string, then only digits. */
  function IsIntValue(s: string): bool
  {
    if |s| == 0 then false
    else if s[0] == '-' then |s| > 1 && DigitsFrom(s, 1)
    else DigitsFrom(s, 0)
  }

  lemma {:induction false} DigitsFromAll(s: string, i: nat)
    requires i <= |s|
    ensures DigitsFrom(s, i) <==> AllDigits(s[i..])
    decreases |s| - i
  {
    if i < |s| {
      DigitsFromAll(s, i + 1);
      assert s[i..][1..] == s[i + 1..];
    }
  }

  /** Where the digits of a number start: after the minus sign if there is one. */
  function SignLength(s: string): nat
  {
    if |s| > 0 && s[0] == '-' then 1 else 0
  }

  /** `isIntValue(s)` holds exactly when `s` is non-empty and, after at most one
      leading minus, has at least one character, all of them digits. */
  lemma IsIntValueMeaning(s: string)
    ensures IsIntValue(s) <==> |s| > 0 && SignLength(s) < |s| && AllDigits(s[SignLength(s)..])
  {
    if |s| > 0 {
      DigitsFromAll(s, SignLength(s));
    }
  }

  /** The decimal value of a string that `isIntValue` accepts. */
  function SignedDecimal(s: string): int
    requires IsIntValue(s)
  {
    IsIntValueMeaning(s);
    if s[0] == '-' then -(DecValue(s[1..]) as int) else DecValue(s)
  }

  /** `toInt()` of an accepted string is its decimal value. */
  lemma ToIntOfIntValue(s: string)
    requires IsIntValue(s)
    ensures ToInt(s) == SignedDecimal(s)
  {
    IsIntValueMeaning(s);
    assert TrimLeft(s) == s;
    if s[0] == '-' {
      assert s[1..] + [] == s[1..];
      LeadingDigitsOfDigits(s[1..], []);
    } else {
      assert s + [] == s;
      LeadingDigitsOfDigits(s, []);
    }
  }

  lemma IntStringIsIntValue(n: int)
    ensures IsIntValue(IntString(n)) && SignedDecimal(IntString(n)) == n
  {
    IntStringShape(n);
    var s := IntString(n);
    IsIntValueMeaning(s);
    ToIntIntString(n, []);
    assert s + [] == s;
    ToIntOfIntValue(s);
  }

  // ================================================================ tryGetInt

  /** The two results of `tryGetInt`: its return value and its out-parameter. */
  datatype IntParse = IntParse(ok: bool, value: int)

  /** The last stage of `tryGetInt`: an already trimmed string is accepted when
      `isIntValue` holds, and its value is then what `toInt()` returns, which
      for such a string is its signed decimal value (`ToIntOfIntValue`). */
  function ReadInt(v: string): (r: IntParse)
    ensures !r.ok ==> r.value == 0
  {
    if IsIntValue(v) then IntParse(true, SignedDecimal(v)) else IntParse(false, 0)
  }

  /** The value `ReadInt` reports is the one `toInt()` computes. */
  lemma ReadIntToInt(v: string)
    ensures ReadInt(v).ok <==> IsIntValue(v)
    ensures ReadInt(v).ok ==> ReadInt(v).value == ToInt(v)
  {
    if IsIntValue(v) {
      ToIntOfIntValue(v);
    }
  }

  /** `tryGetInt(data, offset, end, value)`. */
  function TryGetInt(data: string, offset: int, end: int): (r: IntParse)
    ensures !r.ok ==> r.value == 0
    ensures |data| == 0 || offset < 0 || offset > end || end > |data| ==> !r.ok
    ensures 0 <= offset <= end <= |data| && |data| > 0 ==>
              (r.ok <==> IsIntValue(Trim(data[offset..end])))
    ensures r.ok ==> (0 <= offset <= end <= |data| &&
                      r.value == SignedDecimal(Trim(data[offset..end])))
  {
    if |data| == 0 || offset < 0 || offset > end || end > |data| then IntParse(false, 0)
    else ReadInt(Trim(data[offset..end]))
  }

  /** `tryGetInt(data, value)`, which reads the whole string. It is written
      here without the slice `data[0..|data|]`; `TryGetIntAllWhole` shows it
      is the three-argument form over the whole string. */
  function TryGetIntAll(data: string): (r: IntParse)
    ensures r.ok <==> IsIntValue(Trim(data))
    ensures r.ok ==> r.value == SignedDecimal(Trim(data))
    ensures !r.ok ==> r.value == 0
  {
    if |data| == 0 then IntParse(false, 0) else ReadInt(Trim(data))
  }

  lemma TryGetIntAllWhole(data: string)
    ensures TryGetIntAll(data) == TryGetInt(data, 0, |data|)
  {
    assert data[0..|data|] == data;
  }

  /** A number written by `String(n)` is read back by `tryGetInt`. */
  lemma TryGetIntIntString(n: int)
    ensures TryGetIntAll(IntString(n)) == IntParse(true, n)
  {
    IntStringShape(n);
    TrimUnpadded(IntString(n));
    IntStringIsIntValue(n);
  }

  // ================================================================ tryParseInt

  /** The result of `tryParseInt`: the 16-bit value, or rejection. */
  datatype WordParse = Parsed(value: u16) | Rejected

  predicate BinaryChar(c: char) { c == '0' || c == '1' || c == 'b' }

  /** The value `tryParseInt`'s binary loop holds after reading `s`: each 0 or
      1 is shifted in at the low end of a 16-bit word, a 'b' is skipped. */
  function BinaryFold(s: string): u16
  {
    if s == [] then 0
    else
      var v := BinaryFold(s[..|s| - 1]);
      var c := s[|s| - 1];
      if c == '0' || c == '1' then ToU16(v * 2 + DigitValue(c)) else v
  }

  /** Does the trimmed word take the binary branch of `tryParseInt`? */
  predicate TakesBinaryBranch(t: string)
  {
    StartsWith(t, "0b") || |t| == 16
  }

  /** What `tryParseInt(data, value)` returns and leaves in `value` on success. */
  function ParseWord(data: string): WordParse
  {
    var t := Trim(data);
    if TakesBinaryBranch(t) then
      if forall i :: 0 <= i < |t| ==> BinaryChar(t[i]) then Parsed(BinaryFold(t)) else Rejected
    else if StartsWith(t, "0x") then Parsed(ToU16(StrtolHex(t)))
    else Rejected
  }

  /** `tryParseInt(data, value)`: trims, then reads a binary word bit by bit or
      hands a "0x" word to `strtol`. */
  method TryParseInt(data: string) returns (ok: bool, value: u16)
    ensures ok <==> ParseWord(data).Parsed?
    ensures ok ==> value == ParseWord(data).value
  {
    var t := Trim(data);
    if TakesBinaryBranch(t) {
      value := 0;
      for i := 0 to |t|
        invariant value == BinaryFold(t[..i])
        invariant forall j :: 0 <= j < i ==> BinaryChar(t[j])
      {
        var c := t[i];
        assert t[..i + 1][..i] == t[..i];
        if c == '0' || c == '1' {
          value := ToU16(value * 2 + DigitValue(c));
        } else if c != 'b' {
          return false, value;
        }
      }
      assert t[..|t|] == t;
      return true, value;
    }
    if StartsWith(t, "0x") {
      return true, ToU16(StrtolHex(t));
    }
    return false, 0;
  }

  /** The 0 and 1 characters of `s`, in order. */
  function BinaryDigits(s: string): string
  {
    if s == [] then []
    else
      var c := s[|s| - 1];
      BinaryDigits(s[..|s| - 1]) + (if c == '0' || c == '1' then [c] else [])
  }

  /** Value of a string of 0s and 1s, most significant first, unbounded. */
  function BinaryValue(s: string): nat
  {
    if s == [] then 0
    else BinaryValue(s[..|s| - 1]) * 2 + (if s[|s| - 1] == '1' then 1 else 0)
  }

  lemma ModDouble(x: int, b: int)
    ensures ((x % U16_LIMIT) * 2 + b) % U16_LIMIT == (x * 2 + b) % U16_LIMIT
  {
    var q := x / U16_LIMIT;
    assert x * 2 + b == (x % U16_LIMIT) * 2 + b + (2 * q) * U16_LIMIT;
  }

  /** The binary branch reads the word's 0 and 1 characters most significant
      first and keeps the low 16 bits. */
  lemma {:induction false} BinaryFoldValue(s: string)
    ensures BinaryFold(s) == BinaryValue(BinaryDigits(s)) % U16_LIMIT
    decreases |s|
  {
    if s != [] {
      var s' := s[..|s| - 1];
      var c := s[|s| - 1];
      BinaryFoldValue(s');
      if c == '0' || c == '1' {
        var ds := BinaryDigits(s') + [c];
        assert ds[..|ds| - 1] == BinaryDigits(s');
        ModDouble(BinaryValue(BinaryDigits(s')), DigitValue(c));
      } else {
        assert BinaryDigits(s) == BinaryDigits(s') + [] == BinaryDigits(s');
      }
    }
  }

  // ================================================================ byteToBitMask

  const LSBFIRST: int := 0

  /** The bit that iteration `i` of `byteToBitMask`'s loop tests. */
  function ProbeBit(lsbFirst: bool, i: nat): bv8
    requires i < 8
  {
    if lsbFirst then (1 as bv8) << i else (1 as bv8) << (7 - i)
  }

  /** The bits that iterations `i` and later still test. */
  function Untested(lsbFirst: bool, i: nat): bv8
    requires i <= 8
  {
    if i == 8 then 0
    else if lsbFirst then (0xFF as bv8) << i else (0xFF as bv8) >> i
  }

  /** The mask after iterations `i` to 7 of the loop, started from `mask`. */
  function MaskFrom(b: bv8, lsbFirst: bool, i: nat, mask: bv8): bv8
    requires i <= 8
    decreases 8 - i
  {
    if i == 8 then mask
    else
      var bit := ProbeBit(lsbFirst, i);
      MaskFrom(b, lsbFirst, i + 1, if b & bit == bit then mask | bit else mask)
  }

  /** `byteToBitMask(b, bitOrder)`: copies each bit of `b` that is set. */
  function ByteToBitMask(b: bv8, bitOrder: int): bv8
  {
    MaskFrom(b, bitOrder == LSBFIRST, 0, 0)
  }

  /** The bit tested at step `i` is a single bit, and it is exactly what
      separates the untested bits before and after that step. */
  lemma ProbeBitSplits(lsbFirst: bool, i: nat)
    requires i < 8
    ensures var bit := ProbeBit(lsbFirst, i);
      bit in {1, 2, 4, 8, 16, 32, 64, 128} &&
      Untested(lsbFirst, i) == Untested(lsbFirst, i + 1) | bit &&
      Untested(lsbFirst, i + 1) & bit == 0
  {
    if i == 0 {} else if i == 1 {} else if i == 2 {} else if i == 3 {}
    else if i == 4 {} else if i == 5 {} else if i == 6 {} else {}
  }

  lemma MaskStep(b: bv8, untested: bv8, rest: bv8, bit: bv8, mask: bv8)
    requires bit in {1, 2, 4, 8, 16, 32, 64, 128}
    requires untested == rest | bit && rest & bit == 0
    requires mask == b & !untested
    ensures (if b & bit == bit then mask | bit else mask) == b & !rest
  {
  }

  lemma {:induction false} MaskFromCopies(b: bv8, lsbFirst: bool, i: nat, mask: bv8)
    requires i <= 8
    requires mask == b & !Untested(lsbFirst, i)
    ensures MaskFrom(b, lsbFirst, i, mask) == b
    decreases 8 - i
  {
    if i < 8 {
      var bit := ProbeBit(lsbFirst, i);
      ProbeBitSplits(lsbFirst, i);
      MaskStep(b, Untested(lsbFirst, i), Untested(lsbFirst, i + 1), bit, mask);
      MaskFromCopies(b, lsbFirst, i + 1, if b & bit == bit then mask | bit else mask);
    } else {
      assert mask == b & !0;
    }
  }

  /** Whatever the bit order, the mask equals the byte. */
  lemma ByteToBitMaskIdentity(b: bv8, bitOrder: int)
    ensures ByteToBitMask(b, bitOrder) == b
  {
    MaskFromCopies(b, bitOrder == LSBFIRST, 0, 0);
  }
}
