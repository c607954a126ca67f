/** The EEPROM song store of song-repository-eeprom.h. A song is saved as
    the serializer's lines, each followed by a newline byte, then the line
    "EOS\n" (which writes one more newline), in a slot of SONG_SIZE bytes
    chosen by the song's index. Loading reads bytes from the slot, cuts them
    into lines at newlines and hands every nonempty line to the song parser
    until the line "EOS", the read bound or the end of the EEPROM.

    The EEPROM is an array of bytes; the global write/read cursor `address`
    is a field of the repository object. */
module SongEeprom {
  import opened CInt
  import opened ArduinoString
  import opened SongModel
  import opened SongParser
  import opened SongParserFacts
  import opened SongSerializer
  import opened SongRoundTrip

  const SONG_SIZE: int := 2048

  /** How far past the start of the next slot `LoadSong` may read. */
  const READ_SLACK: int := 1000

  const NEWLINE: u8 := 10

  const END_OF_SONG: string := "EOS"

  /** The text `SaveSong` writes after the song: the marker and a line break. */
  const END_LINE: string := END_OF_SONG + "\n"

  /** `calculateAddress(index)`: -1 for an index below 1, otherwise the start
      of slot `index`; slot 1 starts at address 0. */
  function CalculateAddress(index: int): (r: int)
    ensures r == -1 <==> index < 1
    ensures index >= 1 ==> r >= 0 && r % SONG_SIZE == 0 && r / SONG_SIZE == index - 1
  {
    if index < 1 then -1 else (index - 1) * SONG_SIZE
  }

  /** Distinct slots do not overlap. */
  lemma SlotsDisjoint(a: int, b: int)
    requires 1 <= a < b
    ensures CalculateAddress(a) + SONG_SIZE <= CalculateAddress(b)
  {
    assert CalculateAddress(b) - CalculateAddress(a) == (b - a) * SONG_SIZE;
  }

  // ================================================================ bytes

  /** `EEPROM.write(a, c)` keeps the low byte of a `char`. */
  function CharByte(c: char): u8 { ToU8(c as int) }

  /** `EEPROM.read(a)` appended to a `String` as a `char`. */
  function ByteChar(b: u8): char { b as char }

  /** The bytes `writeLineToEEPROM(line)` writes. */
  function LineBytes(line: string): (r: seq<u8>)
    ensures |r| == |line| + 1 && r[|line|] == NEWLINE
    ensures forall k :: 0 <= k < |line| ==> r[k] == CharByte(line[k])
  {
    seq(|line|, k requires 0 <= k < |line| => CharByte(line[k])) + [NEWLINE]
  }

  /** The bytes of several lines written one after the other. */
  function Image(lines: seq<string>): seq<u8>
  {
    if lines == [] then [] else Image(lines[..|lines| - 1]) + LineBytes(lines[|lines| - 1])
  }

  /** The lines `SaveSong` writes. */
  function SavedLines(song: Song): seq<string>
    requires ValidSong(song)
  {
    SerializedLines(song) + [END_LINE]
  }

  /** `cells` with `data` written from address `at` on. */
  function Splice(cells: seq<u8>, at: int, data: seq<u8>): (r: seq<u8>)
    requires 0 <= at && at + |data| <= |cells|
    ensures |r| == |cells|
    ensures forall k :: 0 <= k < |cells| ==> r[k] == if at <= k < at + |data| then data[k - at] else cells[k]
  {
    cells[..at] + data + cells[at + |data|..]
  }

  lemma ImageSnoc(lines: seq<string>, l: string)
    ensures Image(lines + [l]) == Image(lines) + LineBytes(l)
  {
    assert (lines + [l])[..|lines|] == lines;
  }

  lemma {:induction false} ImageAppend(a: seq<string>, b: seq<string>)
    ensures Image(a + b) == Image(a) + Image(b)
    decreases |b|
  {
    if b == [] {
      assert a + b == a;
    } else {
      var b0 := b[..|b| - 1];
      var l := b[|b| - 1];
      assert a + b == (a + b0) + [l];
      assert b == b0 + [l];
      ImageSnoc(a + b0, l);
      ImageSnoc(b0, l);
      ImageAppend(a, b0);
    }
  }

  /** The image of the first `k + 1` lines ends with line `k`. */
  lemma ImagePrefixStep(lines: seq<string>, k: int)
    requires 0 <= k < |lines|
    ensures Image(lines[..k + 1]) == Image(lines[..k]) + LineBytes(lines[k])
  {
    assert lines[..k + 1] == lines[..k] + [lines[k]];
    ImageSnoc(lines[..k], lines[k]);
  }

  /** The image of all lines is the image of the first `k` followed by the
      image of the rest. */
  lemma ImageSplit(lines: seq<string>, k: int)
    requires 0 <= k <= |lines|
    ensures Image(lines) == Image(lines[..k]) + Image(lines[k..])
  {
    assert lines == lines[..k] + lines[k..];
    ImageAppend(lines[..k], lines[k..]);
  }

  lemma SpliceTwice(cells: seq<u8>, at: int, a: seq<u8>, b: seq<u8>)
    requires 0 <= at && at + |a| + |b| <= |cells|
    ensures Splice(Splice(cells, at, a), at + |a|, b) == Splice(cells, at, a + b)
  {
  }

  /** Writing the next byte of `data` over a partial splice extends it by one. */
  lemma SpliceStep(cells: seq<u8>, at: int, data: seq<u8>, i: int)
    requires 0 <= at && 0 <= i < |data| && at + |data| <= |cells|
    ensures Splice(cells, at, data[..i])[at + i := data[i]] == Splice(cells, at, data[..i + 1])
  {
    assert data[..i] + [data[i]] == data[..i + 1];
    SpliceTwice(cells, at, data[..i], [data[i]]);
    var partial := Splice(cells, at, data[..i]);
    assert Splice(partial, at + i, [data[i]]) == partial[at + i := data[i]];
  }

  /** The image of `saved`, the lines followed by the marker, is the image
      of the lines followed by the marker's bytes. */
  lemma SavedImage(lines: seq<string>, marker: string, saved: seq<string>)
    requires saved == lines + [marker]
    ensures Image(saved) == Image(lines) + LineBytes(marker)
    ensures |Image(saved)| == |Image(lines)| + |marker| + 1
  {
    ImageSnoc(lines, marker);
  }

  /** Writing the image of `lines` from `at` and then the marker from `next`,
      where the image ends, writes the image of `saved`. */
  lemma SavedSplice(cells: seq<u8>, at: int, next: int, lines: seq<string>, marker: string, saved: seq<string>)
    requires saved == lines + [marker] && next == at + |Image(lines)|
    requires 0 <= at && at + |Image(saved)| <= |cells|
    ensures next + |LineBytes(marker)| <= |cells|
    ensures Splice(Splice(cells, at, Image(lines)), next, LineBytes(marker)) == Splice(cells, at, Image(saved))
  {
    SavedImage(lines, marker, saved);
    SpliceTwice(cells, at, Image(lines), LineBytes(marker));
  }

  // ================================================================ what LoadSong reads

  /** The lines `LoadSong`'s loop hands to the parser when it reads from
      address `a` with `line` accumulated so far, stopping before `end`, and
      the address it stops at. A newline or the last cell ends a line (the
      last cell's byte is not added to it); an empty line is skipped; "EOS"
      stops the loop, and so does the end of the EEPROM. A read at or past
      the last cell ends the line without its byte, so a slot that starts
      past the end yields no line and stops one cell later. */
  function LoadFrom(cells: seq<u8>, a: int, end: int, line: string): (r: (seq<string>, int))
    requires 0 <= a
    decreases end - a
  {
    if a >= end then ([], a)
    else
      var next := a + 1;
      if next >= |cells| || ByteChar(cells[a]) == '\n' then
        if |line| > 0 && line == END_OF_SONG then ([], next)
        else
          var handed := if |line| > 0 then [line] else [];
          if next >= |cells| then (handed, next)
          else
            var rest := LoadFrom(cells, next, end, "");
            (handed + rest.0, rest.1)
      else LoadFrom(cells, next, end, line + [ByteChar(cells[a])])
  }

  /** Reading towards `end` has handed `handed` to the parser and, at
      address `a`, holds the partial line `line`; `total` is what the whole
      read yields. */
  predicate Reading(total: (seq<string>, int), cells: seq<u8>, end: int, a: int, line: string, handed: seq<string>)
    requires 0 <= a <= end
  {
    var rest := LoadFrom(cells, a, end, line);
    total == (handed + rest.0, rest.1)
  }

  /** A byte other than a newline, before the last cell, extends the line. */
  lemma ReadExtend(total: (seq<string>, int), cells: seq<u8>, end: int, a: int, line: string, handed: seq<string>)
    requires 0 <= a < end && a + 1 < |cells| && ByteChar(cells[a]) != '\n'
    requires Reading(total, cells, end, a, line, handed)
    ensures Reading(total, cells, end, a + 1, line + [ByteChar(cells[a])], handed)
  {
  }

  /** A line ending in "EOS" stops the load just after that byte. */
  lemma ReadStop(total: (seq<string>, int), cells: seq<u8>, end: int, a: int, handed: seq<string>)
    requires 0 <= a < end && (a + 1 >= |cells| || ByteChar(cells[a]) == '\n')
    requires Reading(total, cells, end, a, END_OF_SONG, handed)
    ensures total == (handed, a + 1)
  {
    assert handed + [] == handed;
  }

  /** An empty line is skipped. */
  lemma ReadSkipEmpty(total: (seq<string>, int), cells: seq<u8>, end: int, a: int, handed: seq<string>)
    requires 0 <= a < end && (a + 1 >= |cells| || ByteChar(cells[a]) == '\n')
    requires Reading(total, cells, end, a, "", handed)
    ensures a + 1 >= |cells| ==> total == (handed, a + 1)
    ensures a + 1 < |cells| ==> Reading(total, cells, end, a + 1, "", handed)
  {
    if a + 1 < |cells| {
      var rest := LoadFrom(cells, a + 1, end, "");
      assert LoadFrom(cells, a, end, "") == ([] + rest.0, rest.1);
      assert [] + rest.0 == rest.0;
    } else {
      assert handed + [] == handed;
    }
  }

  /** A nonempty line other than "EOS" is handed to the parser; it is one of
      the lines the whole read yields. */
  lemma ReadHandLine(total: (seq<string>, int), cells: seq<u8>, end: int, a: int, line: string, handed: seq<string>)
    requires 0 <= a < end && (a + 1 >= |cells| || ByteChar(cells[a]) == '\n')
    requires |line| > 0 && line != END_OF_SONG
    requires Reading(total, cells, end, a, line, handed)
    requires AllWellIndexed(total.0)
    ensures AllWellIndexed(handed + [line])
    ensures a + 1 >= |cells| ==> total == (handed + [line], a + 1)
    ensures a + 1 < |cells| ==> Reading(total, cells, end, a + 1, "", handed + [line])
  {
    var rest := if a + 1 < |cells| then LoadFrom(cells, a + 1, end, "").0 else [];
    assert total.0 == handed + [line] + rest by {
      if a + 1 >= |cells| {
        assert handed + [line] + [] == handed + [line];
      }
    }
    assert forall k :: 0 <= k < |handed| + 1 ==> total.0[k] == (handed + [line])[k];
  }

  /** The end of a line, by cases: "EOS" stops the read; otherwise the line,
      if nonempty, is handed over, and the read goes on unless it is at the
      last cell. */
  lemma ReadLineEnd(total: (seq<string>, int), cells: seq<u8>, end: int, a: int, line: string, handed: seq<string>)
    requires 0 <= a < end && (a + 1 >= |cells| || ByteChar(cells[a]) == '\n')
    requires Reading(total, cells, end, a, line, handed)
    requires AllWellIndexed(total.0)
    ensures |line| == 0 ==> a + 1 >= |cells| ==> total == (handed, a + 1)
    ensures |line| == 0 ==> a + 1 < |cells| ==> Reading(total, cells, end, a + 1, "", handed)
    ensures |line| > 0 && line == END_OF_SONG ==> total == (handed, a + 1)
    ensures |line| > 0 && line != END_OF_SONG ==> AllWellIndexed(handed + [line])
    ensures |line| > 0 && line != END_OF_SONG ==> a + 1 >= |cells| ==> total == (handed + [line], a + 1)
    ensures |line| > 0 && line != END_OF_SONG ==> a + 1 < |cells| ==> Reading(total, cells, end, a + 1, "", handed + [line])
  {
    if |line| == 0 {
      ReadSkipEmpty(total, cells, end, a, handed);
    } else if line == END_OF_SONG {
      ReadStop(total, cells, end, a, handed);
    } else {
      ReadHandLine(total, cells, end, a, line, handed);
    }
  }

  /** A read that has reached `end` has handed over everything. */
  lemma ReadEnd(total: (seq<string>, int), cells: seq<u8>, end: int, a: int, line: string, handed: seq<string>)
    requires 0 <= a == end
    requires Reading(total, cells, end, a, line, handed)
    ensures total == (handed, a)
  {
    assert handed + [] == handed;
  }

  /** What `LoadSong(index)` reads from `cells`: from the start of the slot
      to SONG_SIZE + READ_SLACK bytes further. */
  function LoadedLines(cells: seq<u8>, index: int): (seq<string>, int)
    requires index >= 1
  {
    var offset := CalculateAddress(index);
    LoadFrom(cells, offset, offset + SONG_SIZE + READ_SLACK, "")
  }

  /** A slot that starts at or past the end of the EEPROM yields no line:
      the load stops one cell after the slot's start. */
  lemma LoadPastEnd(cells: seq<u8>, index: int)
    requires index >= 1 && CalculateAddress(index) >= |cells|
    ensures LoadedLines(cells, index) == ([], CalculateAddress(index) + 1)
  {
  }

  // ================================================================ the repository object

  class SongRepositoryEeprom {
    /** The EEPROM cells. */
    const eeprom: array<u8>

    /** The global cursor `address` that writes and reads advance. */
    var address: int

    constructor (eeprom: array<u8>)
      ensures this.eeprom == eeprom && address == 0
    {
      this.eeprom := eeprom;
      address := 0;
    }

    /** `writeLineToEEPROM(line)`: the line's bytes and a newline at
        consecutive addresses from the cursor, which moves past them; no
        other cell changes. */
    method WriteLine(line: string)
      requires 0 <= address && address + |line| + 1 <= eeprom.Length
      modifies this, eeprom
      ensures address == old(address) + |line| + 1
      ensures eeprom[..] == Splice(old(eeprom[..]), old(address), LineBytes(line))
    {
      ghost var start := address;
      ghost var before := eeprom[..];
      ghost var bytes := LineBytes(line);
      for i := 0 to |line|
        invariant address == start + i
        invariant eeprom[..] == Splice(before, start, bytes[..i])
      {
        SpliceStep(before, start, bytes, i);
        eeprom[address] := CharByte(line[i]);
        address := address + 1;
      }
      SpliceStep(before, start, bytes, |line|);
      eeprom[address] := NEWLINE;
      address := address + 1;
      assert bytes[..|line| + 1] == bytes;
    }

    /** Calls `writeLineToEEPROM` on each of `lines` in order. */
    method WriteLines(lines: seq<string>)
      requires 0 <= address && address + |Image(lines)| <= eeprom.Length
      modifies this, eeprom
      ensures address == old(address) + |Image(lines)|
      ensures eeprom[..] == Splice(old(eeprom[..]), old(address), Image(lines))
    {
      ghost var start := address;
      ghost var before := eeprom[..];
      assert Splice(before, start, Image([])) == before;
      for k := 0 to |lines|
        invariant address == start + |Image(lines[..k])|
        invariant start + |Image(lines)| <= eeprom.Length && |Image(lines[..k])| <= |Image(lines)|
        invariant eeprom[..] == Splice(before, start, Image(lines[..k]))
      {
        ImagePrefixStep(lines, k);
        ImageSplit(lines, k + 1);
        WriteLine(lines[k]);
        SpliceTwice(before, start, Image(lines[..k]), LineBytes(lines[k]));
      }
      assert lines[..|lines|] == lines;
    }

    /** `SaveSong(song, index)`: false, with nothing written, for an index
        below 1; otherwise the serializer's lines and then "EOS\n" are written
        from the start of the slot, and the result is true. */
    method SaveSong(song: Song, index: int) returns (ok: bool)
      requires ValidSong(song)
      requires index >= 1 ==> CalculateAddress(index) + |Image(SavedLines(song))| <= eeprom.Length
      modifies this, eeprom
      ensures ok <==> index >= 1
      ensures !ok ==> eeprom[..] == old(eeprom[..]) && address == old(address)
      ensures ok ==> eeprom[..] == Splice(old(eeprom[..]), CalculateAddress(index), Image(SavedLines(song))) &&
                     address == CalculateAddress(index) + |Image(SavedLines(song))|
    {
      var offset := CalculateAddress(index);
      if offset < 0 {
        return false;
      }
      address := offset;
      var lines := Serialize(song);
      var marker := END_LINE;
      ghost var before := eeprom[..];
      ghost var saved := SavedLines(song);
      SavedImage(lines, marker, saved);
      WriteLines(lines);
      ghost var next := address;
      WriteLine(marker);
      SavedSplice(before, offset, next, lines, marker, saved);
      return true;
    }

    /** `LoadSong`'s call of `parseCommand` on one nonempty line. */
    static method HandLine(parser: SerialSongParser, ghost base: Song, ghost handed: seq<string>, line: string)
      requires ValidSong(base) && AllWellIndexed(handed + [line])
      requires AllWellIndexed(handed) && ValidSong(parser.song) && parser.song == Replay(base, handed)
      modifies parser
      ensures AllWellIndexed(handed + [line])
      ensures ValidSong(parser.song) && parser.song == Replay(base, handed + [line])
    {
      assert WellIndexed((handed + [line])[|handed|]);
      var partIndex, target := parser.ParseCommand(line);
      ReplaySnoc(base, handed, line);
    }

    /** One pass of `LoadSong`'s loop: reads the byte at the cursor, which
        either extends `line`, or ends it, handing it to `parser` unless it
        is empty; "EOS" and the end of the EEPROM stop the loop. */
    method ReadStep(parser: SerialSongParser, endAddress: int, ghost base: Song, ghost total: (seq<string>, int),
                    ghost cells: seq<u8>, line: string, ghost handed: seq<string>)
        returns (nextLine: string, ghost nextHanded: seq<string>, stop: bool)
      requires cells == eeprom[..] && 0 <= address < endAddress
      requires ValidSong(base) && AllWellIndexed(total.0)
      requires Reading(total, cells, endAddress, address, line, handed)
      requires AllWellIndexed(handed) && parser.song == Replay(base, handed)
      modifies this, parser
      ensures address == old(address) + 1
      ensures stop ==> total == (nextHanded, address)
      ensures !stop ==> Reading(total, cells, endAddress, address, nextLine, nextHanded)
      ensures !stop && address == endAddress ==> total == (nextHanded, address)
      ensures AllWellIndexed(nextHanded) && parser.song == Replay(base, nextHanded)
    {
      ghost var a := address;
      // a read past the last cell gives a byte the loop never uses
      var c := if address < eeprom.Length then ByteChar(eeprom[address]) else ByteChar(0);
      address := address + 1;
      if c == '\n' || address >= eeprom.Length {
        nextHanded, stop := EndLine(parser, endAddress, base, total, cells, line, handed, address);
        nextLine := "";
      } else {
        ReadExtend(total, cells, endAddress, a, line, handed);
        nextLine, nextHanded, stop := line + [c], handed, false;
      }
      if !stop && address == endAddress {
        ReadEnd(total, cells, endAddress, address, nextLine, nextHanded);
      }
    }

    /** The end of a line in `LoadSong`'s loop, with the cursor at `next`
        just past the newline or the last cell: "EOS" stops the loop, any
        other nonempty line goes to `parser`, and the end of the EEPROM
        stops the loop. */
    method EndLine(parser: SerialSongParser, endAddress: int, ghost base: Song, ghost total: (seq<string>, int),
                   ghost cells: seq<u8>, line: string, ghost handed: seq<string>, next: int)
        returns (ghost nextHanded: seq<string>, stop: bool)
      requires |cells| == eeprom.Length
      requires 1 <= next <= endAddress && (next >= |cells| || ByteChar(cells[next - 1]) == '\n')
      requires ValidSong(base) && AllWellIndexed(total.0)
      requires Reading(total, cells, endAddress, next - 1, line, handed)
      requires AllWellIndexed(handed) && parser.song == Replay(base, handed)
      modifies parser
      ensures stop ==> total == (nextHanded, next)
      ensures !stop ==> Reading(total, cells, endAddress, next, "", nextHanded)
      ensures AllWellIndexed(nextHanded) && parser.song == Replay(base, nextHanded)
    {
      nextHanded := handed;
      ReadLineEnd(total, cells, endAddress, next - 1, line, handed);
      if |line| > 0 && line != END_OF_SONG {
        HandLine(parser, base, handed, line);
        nextHanded := handed + [line];
      }
      stop := (|line| > 0 && line == END_OF_SONG) || next >= eeprom.Length;
    }

    /** `LoadSong`'s loop: reads bytes from the cursor up to `endAddress`,
        handing each nonempty line to `parser`, until "EOS", `endAddress` or
        the end of the EEPROM. */
    method ReadLines(parser: SerialSongParser, endAddress: int, ghost base: Song, ghost total: (seq<string>, int))
        returns (ghost handed: seq<string>)
      requires 0 <= address < endAddress
      requires ValidSong(base) && parser.song == base
      requires Reading(total, eeprom[..], endAddress, address, "", [])
      requires AllWellIndexed(total.0)
      modifies this, parser
      ensures total == (handed, address)
      ensures AllWellIndexed(handed) && parser.song == Replay(base, handed)
    {
      ghost var cells := eeprom[..];
      var line := "";
      handed := [];
      assert Replay(base, []) == base;
      while address < endAddress
        invariant 0 <= address <= endAddress
        invariant Reading(total, cells, endAddress, address, line, handed)
        invariant address == endAddress ==> total == (handed, address)
        invariant AllWellIndexed(handed) && parser.song == Replay(base, handed)
        decreases endAddress - address
      {
        var stop;
        line, handed, stop := ReadStep(parser, endAddress, base, total, cells, line, handed);
        if stop {
          break;
        }
      }
    }

    /** `LoadSong(index, success)`: the parser, working on a new song, gets
        the lines `LoadFrom` reads from the slot, in order; `success` is
        always true. A slot that starts past the end of the EEPROM gives a new
        song. An index below 1 makes the source read address -1, and every
        line handed to the parser must keep its indices in range. */
    method LoadSong(index: int) returns (song: Song, success: bool)
      requires index >= 1
      requires AllWellIndexed(LoadedLines(eeprom[..], index).0)
      modifies this
      ensures success
      ensures song == Replay(NewSong(), LoadedLines(old(eeprom[..]), index).0)
      ensures address == LoadedLines(old(eeprom[..]), index).1
      ensures CalculateAddress(index) >= eeprom.Length ==>
                song == NewSong() && address == CalculateAddress(index) + 1
    {
      ghost var cells := eeprom[..];
      var offset := CalculateAddress(index);
      address := offset;
      var endAddress := address + SONG_SIZE + READ_SLACK;
      ghost var total := LoadFrom(cells, offset, endAddress, "");
      assert total == LoadedLines(cells, index);
      var parser := new SerialSongParser(NewSong());
      assert Reading(total, cells, endAddress, address, "", []) by {
        assert [] + total.0 == total.0;
      }
      ghost var handed := ReadLines(parser, endAddress, NewSong(), total);
      if offset >= eeprom.Length {
        LoadPastEnd(cells, index);
      }
      song := parser.song;
      success := true;
    }
  }

  // ================================================================ saving then loading

  /** A line that survives the EEPROM: nonempty, not the end marker, and
      made of one-byte characters other than newline. */
  predicate Storable(l: string)
  {
    |l| > 0 && l != END_OF_SONG && forall k :: 0 <= k < |l| ==> l[k] != '\n' && (l[k] as int) < 0x100
  }

  predicate AllStorable(lines: seq<string>)
  {
    forall k :: 0 <= k < |lines| ==> Storable(lines[k])
  }

  /** `cells` hold `data` from address `p` on. */
  predicate Holds(cells: seq<u8>, p: int, data: seq<u8>)
  {
    0 <= p && p + |data| <= |cells| && forall k :: 0 <= k < |data| ==> cells[p + k] == data[k]
  }

  lemma SpliceHolds(cells: seq<u8>, at: int, data: seq<u8>)
    requires 0 <= at && at + |data| <= |cells|
    ensures Holds(Splice(cells, at, data), at, data)
  {
  }

  lemma HoldsSplit(cells: seq<u8>, p: int, a: seq<u8>, b: seq<u8>)
    requires Holds(cells, p, a + b)
    ensures Holds(cells, p, a) && Holds(cells, p + |a|, b)
  {
    forall k | 0 <= k < |a|
      ensures cells[p + k] == a[k]
    {
      assert (a + b)[k] == a[k];
    }
    forall k | 0 <= k < |b|
      ensures cells[p + |a| + k] == b[k]
    {
      assert (a + b)[|a| + k] == b[k];
    }
  }

  /** A one-byte character reads back as itself. */
  lemma ByteRoundTrip(c: char)
    requires (c as int) < 0x100
    ensures ByteChar(CharByte(c)) == c
  {
  }

  /** Reading the characters of a line, from its `j`-th on, accumulates the
      whole line and stops at its newline. */
  lemma {:induction false} ReadChars(cells: seq<u8>, p: int, end: int, l: string, j: int)
    requires 0 <= j <= |l|
    requires forall k :: 0 <= k < |l| ==> l[k] != '\n' && (l[k] as int) < 0x100
    requires Holds(cells, p, LineBytes(l)) && p + |l| < end
    ensures LoadFrom(cells, p + j, end, l[..j]) == LoadFrom(cells, p + |l|, end, l)
    decreases |l| - j
  {
    if j < |l| {
      assert cells[p + j] == CharByte(l[j]);
      ByteRoundTrip(l[j]);
      assert l[..j] + [l[j]] == l[..j + 1];
      ReadChars(cells, p, end, l, j + 1);
    } else {
      assert l[..j] == l;
    }
  }

  /** A stored line followed by more bytes is handed over whole. */
  lemma ReadStoredLine(cells: seq<u8>, p: int, end: int, l: string)
    requires Storable(l) && Holds(cells, p, LineBytes(l))
    requires p + |l| < end && p + |l| + 1 < |cells|
    ensures var rest := LoadFrom(cells, p + |l| + 1, end, "");
            LoadFrom(cells, p, end, "") == ([l] + rest.0, rest.1)
  {
    ReadChars(cells, p, end, l, 0);
    assert l[..0] == "";
    assert cells[p + |l|] == NEWLINE;
  }

  /** The stored end marker ends the load just after its newline. */
  lemma ReadEndMarker(cells: seq<u8>, p: int, end: int)
    requires Holds(cells, p, LineBytes(END_LINE)) && p + 3 < end
    ensures LoadFrom(cells, p, end, "") == ([], p + 4)
  {
    var m := END_OF_SONG;
    assert Holds(cells, p, LineBytes(m)) by {
      forall k | 0 <= k < 4
        ensures cells[p + k] == LineBytes(m)[k]
      {
        assert cells[p + k] == LineBytes(m + "\n")[k];
      }
    }
    ReadChars(cells, p, end, m, 0);
    assert m[..0] == "";
    assert cells[p + 3] == NEWLINE;
  }

  /** The image of storable lines followed by the stored end marker loads
      back as exactly those lines. */
  lemma {:induction false} LoadImage(cells: seq<u8>, p: int, end: int, lines: seq<string>)
    requires AllStorable(lines)
    requires Holds(cells, p, Image(lines) + LineBytes(END_LINE))
    requires p + |Image(lines)| + 3 < end
    ensures LoadFrom(cells, p, end, "") == (lines, p + |Image(lines)| + 4)
    decreases |lines|
  {
    var marker := LineBytes(END_LINE);
    if lines == [] {
      assert Image(lines) + marker == marker;
      ReadEndMarker(cells, p, end);
    } else {
      var l, rest := lines[0], lines[1..];
      assert Image(lines) == LineBytes(l) + Image(rest) by {
        assert lines == [l] + rest;
        assert Image([l]) == LineBytes(l) by {
          assert [l][..0] == [];
        }
        ImageAppend([l], rest);
      }
      assert Holds(cells, p, LineBytes(l)) && Holds(cells, p + |l| + 1, Image(rest) + marker) by {
        assert Image(lines) + marker == LineBytes(l) + (Image(rest) + marker);
        HoldsSplit(cells, p, LineBytes(l), Image(rest) + marker);
      }
      ReadStoredLine(cells, p, end, l);
      assert AllStorable(rest) by {
        assert forall k :: 0 <= k < |rest| ==> rest[k] == lines[k + 1];
      }
      LoadImage(cells, p + |l| + 1, end, rest);
      assert [l] + rest == lines;
    }
  }

  // ---------------------------------------------------------------- serialized lines are storable

  predicate Printable(s: string)
  {
    forall k :: 0 <= k < |s| ==> ' ' <= s[k] <= '~'
  }

  lemma IntStringPrintable(n: int)
    ensures Printable(IntString(n))
  {
    IntStringShape(n);
  }

  lemma PrintableConcat(a: string, b: string)
    requires Printable(a) && Printable(b)
    ensures Printable(a + b)
  {
    assert forall k :: |a| <= k < |a + b| ==> (a + b)[k] == b[k - |a|];
  }

  lemma StepTokenPrintable(v: u16)
    ensures Printable(StepToken(v))
  {
    if v != 0 {
      PaddedHexValue(v);
      PrintableConcat("0x", PaddedHex(v));
    }
  }

  lemma StepsTextPrintable(page: seq<u16>)
    requires |page| == PAGES
    ensures Printable(Spaced(PageTokens(page), PAGES))
  {
    var t := PageTokens(page);
    StepTokenPrintable(page[0]);
    StepTokenPrintable(page[1]);
    StepTokenPrintable(page[2]);
    StepTokenPrintable(page[3]);
    SpacedFour(t);
    PrintableConcat(t[0], " ");
    PrintableConcat(t[0] + " ", t[1]);
    PrintableConcat(t[0] + " " + t[1], " ");
    PrintableConcat(t[0] + " " + t[1] + " ", t[2]);
    PrintableConcat(t[0] + " " + t[1] + " " + t[2], " ");
    PrintableConcat(t[0] + " " + t[1] + " " + t[2] + " ", t[3]);
  }

  /** A printable line that starts with a digit can be stored. */
  lemma PrintableStorable(l: string)
    requires |l| > 0 && Printable(l) && IsDigit(l[0])
    ensures Storable(l)
  {
    assert l[0] != END_OF_SONG[0];
  }

  lemma Line1Storable(i: nat, v: string)
    requires Printable(v)
    ensures Storable(Line1(i, v))
  {
    IntStringShape(i);
    PrintableStorable(Line1(i, v));
  }

  lemma Line2Storable(i: nat, m: string, v: string)
    requires Printable(m) && Printable(v)
    ensures Storable(Line2(i, m, v))
  {
    IntStringShape(i);
    PrintableStorable(Line2(i, m, v));
  }

  lemma Line3Storable(i: nat, m: string, path: string, v: string)
    requires Printable(m) && Printable(path) && Printable(v)
    ensures Storable(Line3(i, m, path, v))
  {
    IntStringShape(i);
    PrintableStorable(Line3(i, m, path, v));
  }

  lemma {:induction false} MixLinesStorable(i: nat, mix: seq<u16>, n: nat)
    requires n <= |mix|
    ensures AllStorable(MixLines(i, mix, n))
    decreases n
  {
    if n > 0 {
      MixLinesStorable(i, mix, n - 1);
      var extra := if mix[n - 1] == 0 then [] else [MixLine(i, n - 1, mix[n - 1])];
      if mix[n - 1] != 0 {
        MixLineStorable(i, n - 1, mix[n - 1]);
      }
      AllStorableAppend(MixLines(i, mix, n - 1), extra);
    }
  }

  lemma MixLineStorable(i: nat, c: nat, v: u16)
    ensures Storable(MixLine(i, c, v))
  {
    IntStringPrintable(c);
    IntStringPrintable(v);
    PrintableConcat(IntString(c), ".mix");
    Line3Storable(i, "sampler", IntString(c) + ".mix", IntString(v));
  }

  lemma AllStorableAppend(a: seq<string>, b: seq<string>)
    requires AllStorable(a) && AllStorable(b)
    ensures AllStorable(a + b)
  {
    assert forall k :: |a| <= k < |a + b| ==> (a + b)[k] == b[k - |a|];
  }

  lemma ChannelBlockStorable(i: nat, c: nat, ch: DrumSequencerChannel)
    requires ValidChannel(ch)
    ensures AllStorable(ChannelBlock(i, c, ch))
  {
    StepsLineStorable(i, c, ch);
    SettingLinesStorable(i, c, ch);
  }

  lemma StepsLineStorable(i: nat, c: nat, ch: DrumSequencerChannel)
    requires ValidChannel(ch)
    ensures Storable(StepsLine(i, c, ch))
  {
    IntStringPrintable(c);
    StepsTextPrintable(ch.page);
    Line3Storable(i, "seq", IntString(c), Spaced(PageTokens(ch.page), PAGES));
  }

  lemma SettingLinesStorable(i: nat, c: nat, ch: DrumSequencerChannel)
    ensures Storable(DivLine(i, c, ch)) && Storable(EnaLine(i, c, ch)) && Storable(LastLine(i, c, ch))
  {
    IntStringPrintable(c);
    IntStringPrintable(ch.divider);
    Line3Storable(i, "seq", IntString(c) + ".div", IntString(ch.divider));
    Line3Storable(i, "seq", IntString(c) + ".ena", if ch.enabled then "1" else "0");
    IntStringPrintable(ch.lastStep);
    Line3Storable(i, "seq", IntString(c) + ".last", IntString(ch.lastStep));
  }

  lemma {:induction false} ChannelLinesStorable(i: nat, d: DrumSequencer, n: nat)
    requires ValidDrums(d) && n <= DRUM_CHANNELS
    ensures AllStorable(ChannelLines(i, d, n))
    decreases n
  {
    if n > 0 {
      ChannelLinesStorable(i, d, n - 1);
      ChannelBlockStorable(i, n - 1, d.channel[n - 1]);
    }
  }

  lemma PartLinesStorable(i: nat, part: Part)
    requires ValidPart(part)
    ensures AllStorable(PartLines(i, part))
  {
    IntStringPrintable(part.pages);
    IntStringPrintable(part.repeats);
    IntStringPrintable(part.chainTo);
    Line1Storable(i, IntString(part.pages) + " " + IntString(part.repeats) + " " + IntString(part.chainTo));
    if part.pages != 0 {
      IntStringPrintable(part.tempo.bpm);
      Line2Storable(i, "tempo", IntString(part.tempo.bpm));
      IntStringPrintable(part.sampler.bank);
      Line2Storable(i, "sampler", IntString(part.sampler.bank));
      MixLinesStorable(i, part.sampler.mix, MIX_CHANNELS);
      ChannelLinesStorable(i, part.drumSequencer, DRUM_CHANNELS);
    }
  }

  lemma {:induction false} SongLinesStorable(song: Song, n: nat)
    requires ValidSong(song) && n <= CHANNELS
    ensures AllStorable(SongLines(song, n))
    decreases n
  {
    if n > 0 {
      SongLinesStorable(song, n - 1);
      PartLinesStorable(n - 1, song.parts[n - 1]);
    }
  }

  // ---------------------------------------------------------------- the round trip

  /** `image` written from the start of slot `index` fits in `cells` and in
      the window `loadSong` reads. */
  predicate SlotHolds(cells: seq<u8>, index: int, image: seq<u8>)
  {
    index >= 1 && CalculateAddress(index) + |image| <= |cells| && |image| <= SONG_SIZE + READ_SLACK
  }

  /** Storable lines written with the end marker from the start of slot
      `index` are what loading that slot hands over. */
  lemma LoadSaved(cells: seq<u8>, index: int, lines: seq<string>)
    requires AllStorable(lines) && SlotHolds(cells, index, Image(lines + [END_LINE]))
    ensures var offset := CalculateAddress(index);
            var image := Image(lines + [END_LINE]);
            LoadedLines(Splice(cells, offset, image), index) == (lines, offset + |image| - 1)
  {
    var offset := CalculateAddress(index);
    var image := Image(lines + [END_LINE]);
    ImageSnoc(lines, END_LINE);
    SpliceHolds(cells, offset, image);
    LoadImage(Splice(cells, offset, image), offset, offset + SONG_SIZE + READ_SLACK, lines);
  }

  /** Every line the serializer produces can be stored. */
  lemma SerializedStorable(song: Song)
    requires ValidSong(song)
    ensures AllStorable(SerializedLines(song))
  {
    SongLinesStorable(song, CHANNELS);
  }

  /** The song `LoadSong` rebuilds from a slot `SaveSong` has written is the
      saved song as the serializer retains it: ranges kept by the parser,
      fields the serializer does not write back at their defaults. */
  lemma SaveThenLoad(cells: seq<u8>, song: Song, index: int)
    requires ValidSong(song) && SongInRange(song) && SlotHolds(cells, index, Image(SavedLines(song)))
    ensures var saved := Splice(cells, CalculateAddress(index), Image(SavedLines(song)));
            var loaded := LoadedLines(saved, index).0;
            AllWellIndexed(loaded) && Replay(NewSong(), loaded) == RetainedSong(song)
  {
    SerializedStorable(song);
    LoadSaved(cells, index, SerializedLines(song));
    SerializeRoundTrip(song);
  }
}
