/** The song text writer of song-writer.h. `convertSongToLines` writes every
    field of every part: 28 lines per part, zero mixes and disabled channels
    included, the page count derived from channel 0's last step, and the
    step words as unpadded binary. `writeLine` is modelled as appending to
    the list of lines; the SD file it also writes to is not part of the model. */
module SongWriter {
  import opened CInt
  import opened ArduinoString
  import opened SharedStrings
  import opened SongModel
  import opened SongParser
  import opened SongParserFacts
  import opened SongSerializer
  import opened SongRoundTrip

  /** Lines the writer emits per part. */
  const PART_LINE_COUNT: int := 28

  // ================================================================ binary step tokens

  /** `String(page[k], BIN)` for every page. */
  function BinTokens(page: seq<u16>): (r: seq<string>)
    ensures |r| == |page| && forall k :: 0 <= k < |page| ==> r[k] == BinString(page[k])
  {
    seq(|page|, k requires 0 <= k < |page| => BinString(page[k]))
  }

  lemma Pow2Word()
    ensures Pow2(15) == 0x8000 && Pow2(16) == 0x1_0000
  {
    assert Pow2(1) == 2;
    assert Pow2(2) == 4;
    assert Pow2(3) == 8;
    assert Pow2(4) == 16;
    assert Pow2(5) == 32;
    assert Pow2(6) == 64;
    assert Pow2(7) == 128;
    assert Pow2(8) == 256;
    assert Pow2(9) == 512;
    assert Pow2(10) == 1024;
    assert Pow2(11) == 2048;
    assert Pow2(12) == 4096;
    assert Pow2(13) == 8192;
    assert Pow2(14) == 16384;
  }

  lemma {:induction false} BinStringShort(n: nat, k: nat)
    requires 1 <= k && n < Pow2(k)
    ensures |BinString(n)| <= k
  {
    if n >= 2 {
      assert k >= 2;
      BinStringShort(n / 2, k - 1);
    }
  }

  lemma {:induction false} BinStringExact(n: nat, k: nat)
    requires 1 <= k && Pow2(k - 1) <= n < Pow2(k)
    ensures |BinString(n)| == k
  {
    if k > 1 {
      BinStringExact(n / 2, k - 1);
    }
  }

  /** Reading the binary digits back most significant first gives the number. */
  lemma {:induction false} BinaryFoldBinString(n: nat)
    requires n < U16_LIMIT
    ensures BinaryFold(BinString(n)) == n
  {
    var s := BinString(n);
    if n >= 2 {
      var h := BinString(n / 2);
      BinaryFoldBinString(n / 2);
      assert s == h + [DigitChar(n % 2)];
      assert s[..|s| - 1] == h;
    } else {
      assert s[..|s| - 1] == [];
    }
  }

  /** A binary token reads back through `tryParseInt` only when it has all
      16 digits, that is for a page of 0x8000 or more; every smaller page
      is neither a binary nor a hex word and reads back as 0. */
  lemma BinTokenValue(v: u16)
    ensures StepValue(BinString(v)) == if v >= 0x8000 then v else 0
  {
    Pow2Word();
    if v >= 0x8000 {
      BinTokenHigh(v);
    } else {
      BinTokenLow(v);
    }
  }

  /** A page of 0x8000 or more prints 16 binary digits, which read back. */
  lemma BinTokenHigh(v: u16)
    requires Pow2(15) <= v < Pow2(16)
    ensures StepValue(BinString(v)) == v
  {
    var t := BinString(v);
    TrimUnpadded(t);
    BinStringExact(v, 16);
    BinaryFoldBinString(v);
    SixteenDigitWord(t);
  }

  /** A smaller page prints at most 15 digits and no prefix: rejected. */
  lemma BinTokenLow(v: u16)
    requires v < Pow2(15)
    ensures StepValue(BinString(v)) == 0
  {
    var t := BinString(v);
    TrimUnpadded(t);
    BinStringShort(v, 15);
    DigitsUnprefixed(t);
    UnprefixedWord(t);
  }

  /** A word of binary digits has neither a "0b" nor a "0x" prefix. */
  lemma DigitsUnprefixed(t: string)
    requires forall i :: 0 <= i < |t| ==> t[i] == '0' || t[i] == '1'
    ensures !StartsWith(t, "0b") && !StartsWith(t, "0x")
  {
    if |t| >= 2 {
      assert t[..2][1] == t[1];
    }
  }

  /** A trimmed word of 16 binary digits is read bit by bit. */
  lemma SixteenDigitWord(t: string)
    requires Trim(t) == t && |t| == 16
    requires forall i :: 0 <= i < |t| ==> t[i] == '0' || t[i] == '1'
    ensures StepValue(t) == BinaryFold(t)
  {
    assert TakesBinaryBranch(t);
  }

  /** A trimmed word shorter than 16 characters without a prefix is
      rejected, so its page reads 0. */
  lemma UnprefixedWord(t: string)
    requires Trim(t) == t && |t| < 16 && !StartsWith(t, "0b") && !StartsWith(t, "0x")
    ensures StepValue(t) == 0
  {
  }

  lemma BinTokenText(v: u16)
    ensures Value(BinString(v)) && ' ' !in BinString(v)
  {
  }

  /** What a page holds after its binary token has been parsed back. */
  function ReadBack(page: seq<u16>): (r: seq<u16>)
    ensures |r| == |page|
    ensures forall k :: 0 <= k < |page| ==> r[k] == if page[k] >= 0x8000 then page[k] else 0
  {
    seq(|page|, k requires 0 <= k < |page| => if page[k] >= 0x8000 then page[k] else 0)
  }

  // ================================================================ the lines of a part

  /** The page count the writer derives from channel 0's last step. */
  function WriterPages(part: Part): int
    requires ValidPart(part)
  {
    CDiv(part.drumSequencer.channel[0].lastStep, 16) + 1
  }

  function WriterProgrammerLine(i: int, part: Part): string
    requires ValidPart(part)
  {
    Line1(i, IntString(WriterPages(part)) + " " + IntString(part.repeats) + " " + IntString(part.chainTo))
  }

  function WriterStepsLine(i: int, c: int, ch: DrumSequencerChannel): string
    requires ValidChannel(ch)
  {
    Line3(i, "seq", IntString(c), Spaced(BinTokens(ch.page), PAGES))
  }

  function WriterChannelBlock(i: int, c: int, ch: DrumSequencerChannel): seq<string>
    requires ValidChannel(ch)
  {
    [WriterStepsLine(i, c, ch), DivLine(i, c, ch), EnaLine(i, c, ch), LastLine(i, c, ch)]
  }

  /** Mix lines of the first `n` mix channels, zero or not. */
  function WriterMixLines(i: int, mix: seq<u16>, n: nat): (r: seq<string>)
    requires n <= |mix|
    ensures |r| == n
  {
    if n == 0 then [] else WriterMixLines(i, mix, n - 1) + [MixLine(i, n - 1, mix[n - 1])]
  }

  /** Channel blocks of the first `n` drum channels, enabled or not. */
  function WriterChannelLines(i: int, d: DrumSequencer, n: nat): (r: seq<string>)
    requires ValidDrums(d) && n <= DRUM_CHANNELS
    ensures |r| == 4 * n
  {
    if n == 0 then [] else WriterChannelLines(i, d, n - 1) + WriterChannelBlock(i, n - 1, d.channel[n - 1])
  }

  function WriterPartLines(i: int, part: Part): (r: seq<string>)
    requires ValidPart(part)
    ensures |r| == PART_LINE_COUNT
  {
    [WriterProgrammerLine(i, part), TempoLine(i, part), BankLine(i, part)] +
    WriterMixLines(i, part.sampler.mix, MIX_CHANNELS) +
    WriterChannelLines(i, part.drumSequencer, DRUM_CHANNELS)
  }

  function WriterSongLines(song: Song, n: nat): seq<string>
    requires ValidSong(song) && n <= CHANNELS
  {
    if n == 0 then [] else WriterSongLines(song, n - 1) + WriterPartLines(n - 1, song.parts[n - 1])
  }

  function WriterLines(song: Song): seq<string>
    requires ValidSong(song)
  {
    WriterSongLines(song, CHANNELS)
  }

  // ================================================================ convertSongToLines

  /** The four binary step words of a channel, separated by single spaces. */
  method BinaryStepsText(page: seq<u16>) returns (text: string)
    requires |page| == PAGES
    ensures text == Spaced(BinTokens(page), PAGES)
  {
    text := "";
    for pageIndex := 0 to PAGES
      invariant text == Spaced(BinTokens(page), pageIndex)
    {
      SpacedNext(BinTokens(page), pageIndex);
      text := text + BinString(page[pageIndex]);
      if pageIndex < 3 {
        text := text + " ";
      }
    }
  }

  /** The mix lines of `convertSongToLines`' first inner loop. */
  method WriteMixLines(partIndex: int, mix: seq<u16>) returns (lines: seq<string>)
    requires |mix| == MIX_CHANNELS
    ensures lines == WriterMixLines(partIndex, mix, MIX_CHANNELS)
  {
    lines := [];
    for i := 0 to MIX_CHANNELS
      invariant lines == WriterMixLines(partIndex, mix, i)
    {
      lines := lines + [MixLine(partIndex, i, mix[i])];
    }
  }

  /** The channel blocks of `convertSongToLines`' second inner loop. */
  method WriteChannelLines(partIndex: int, d: DrumSequencer) returns (lines: seq<string>)
    requires ValidDrums(d)
    ensures lines == WriterChannelLines(partIndex, d, DRUM_CHANNELS)
  {
    lines := [];
    for channelIndex := 0 to DRUM_CHANNELS
      invariant lines == WriterChannelLines(partIndex, d, channelIndex)
    {
      ghost var before := lines;
      var channel := d.channel[channelIndex];
      var steps := BinaryStepsText(channel.page);
      lines := lines + [Line3(partIndex, "seq", IntString(channelIndex), steps)];
      lines := lines + [DivLine(partIndex, channelIndex, channel)];
      lines := lines + [EnaLine(partIndex, channelIndex, channel)];
      lines := lines + [LastLine(partIndex, channelIndex, channel)];
      AppendFour(before, WriterStepsLine(partIndex, channelIndex, channel), DivLine(partIndex, channelIndex, channel),
                 EnaLine(partIndex, channelIndex, channel), LastLine(partIndex, channelIndex, channel));
    }
  }

  /** Four single appends are one append of the four. */
  lemma AppendFour<T>(l: seq<T>, a: T, b: T, c: T, d: T)
    ensures l + [a] + [b] + [c] + [d] == l + [a, b, c, d]
  {
  }

  /** `convertSongToLines(song)`, with `writeLine` appending to `lines`. */
  method ConvertSongToLines(song: Song) returns (lines: seq<string>)
    requires ValidSong(song)
    ensures lines == WriterLines(song)
  {
    lines := [];
    for partIndex := 0 to CHANNELS
      invariant lines == WriterSongLines(song, partIndex)
    {
      var part := song.parts[partIndex];
      var head := [WriterProgrammerLine(partIndex, part), TempoLine(partIndex, part), BankLine(partIndex, part)];
      var mixes := WriteMixLines(partIndex, part.sampler.mix);
      var channels := WriteChannelLines(partIndex, part.drumSequencer);
      lines := lines + (head + mixes + channels);
    }
  }

  // ================================================================ shape

  lemma {:induction false} WriterMixLinesLayout(i: int, mix: seq<u16>, n: nat)
    requires n <= |mix|
    ensures |WriterMixLines(i, mix, n)| == n
    ensures forall m :: 0 <= m < n ==> WriterMixLines(i, mix, n)[m] == MixLine(i, m, mix[m])
  {
    if n > 0 {
      WriterMixLinesLayout(i, mix, n - 1);
      var prev := WriterMixLines(i, mix, n - 1);
      var x := MixLine(i, n - 1, mix[n - 1]);
      assert WriterMixLines(i, mix, n) == prev + [x];
      forall m | 0 <= m < n
        ensures (prev + [x])[m] == MixLine(i, m, mix[m])
      {
        SnocRow(prev, x, m);
      }
    }
  }

  /** Element `m` of `prev + [x]`. */
  lemma SnocRow<T>(prev: seq<T>, x: T, m: nat)
    requires m <= |prev|
    ensures (prev + [x])[m] == if m < |prev| then prev[m] else x
  {
  }

  lemma {:induction false} WriterChannelLinesLayout(i: int, d: DrumSequencer, n: nat)
    requires ValidDrums(d) && n <= DRUM_CHANNELS
    ensures |WriterChannelLines(i, d, n)| == 4 * n
    ensures forall c, j :: 0 <= c < n && 0 <= j < 4 ==>
              WriterChannelLines(i, d, n)[4 * c + j] == WriterChannelBlock(i, c, d.channel[c])[j]
  {
    if n > 0 {
      WriterChannelLinesLayout(i, d, n - 1);
      var prev := WriterChannelLines(i, d, n - 1);
      var b := WriterChannelBlock(i, n - 1, d.channel[n - 1]);
      assert WriterChannelLines(i, d, n) == prev + b;
      forall c, j | 0 <= c < n && 0 <= j < 4
        ensures (prev + b)[4 * c + j] == WriterChannelBlock(i, c, d.channel[c])[j]
      {
        BlockRow(prev, b, n - 1, c, j);
      }
    }
  }

  /** Line `4c + j` of `prev + b`, where `prev` holds `m` blocks of four. */
  lemma BlockRow<T>(prev: seq<T>, b: seq<T>, m: nat, c: nat, j: nat)
    requires |prev| == 4 * m && |b| == 4 && c <= m && j < 4
    ensures 4 * c + j < |prev + b|
    ensures (prev + b)[4 * c + j] == if c < m then prev[4 * c + j] else b[j]
  {
  }

  /** Every part has 28 lines: programmer, tempo, bank, the five mix lines in
      channel order, then the block of steps, div, ena and last lines of each
      of the five drum channels in order. */
  lemma WriterPartLayout(i: int, part: Part)
    requires ValidPart(part)
    ensures var l := WriterPartLines(i, part);
            |l| == PART_LINE_COUNT &&
            l[0] == WriterProgrammerLine(i, part) && l[1] == TempoLine(i, part) && l[2] == BankLine(i, part) &&
            (forall m :: 0 <= m < MIX_CHANNELS ==> l[3 + m] == MixLine(i, m, part.sampler.mix[m])) &&
            (forall c, j :: 0 <= c < DRUM_CHANNELS && 0 <= j < 4 ==>
               l[8 + 4 * c + j] == WriterChannelBlock(i, c, part.drumSequencer.channel[c])[j])
  {
    var head := [WriterProgrammerLine(i, part), TempoLine(i, part), BankLine(i, part)];
    var mixes := WriterMixLines(i, part.sampler.mix, MIX_CHANNELS);
    var chans := WriterChannelLines(i, part.drumSequencer, DRUM_CHANNELS);
    WriterMixLinesLayout(i, part.sampler.mix, MIX_CHANNELS);
    WriterChannelLinesLayout(i, part.drumSequencer, DRUM_CHANNELS);
    assert WriterPartLines(i, part) == (head + mixes) + chans;
  }

  /** Line `28j + k` of `prev + p`, where `prev` holds `m` parts. */
  lemma PartRow<T>(prev: seq<T>, p: seq<T>, m: nat, j: nat, k: nat)
    requires |prev| == PART_LINE_COUNT * m && |p| == PART_LINE_COUNT && j <= m && k < PART_LINE_COUNT
    ensures PART_LINE_COUNT * j + k < |prev + p|
    ensures (prev + p)[PART_LINE_COUNT * j + k] == if j < m then prev[PART_LINE_COUNT * j + k] else p[k]
  {
  }

  /** The parts follow each other in order, 28 lines each. */
  lemma {:induction false} WriterSongLayout(song: Song, n: nat)
    requires ValidSong(song) && n <= CHANNELS
    ensures |WriterSongLines(song, n)| == PART_LINE_COUNT * n
    ensures forall j, k :: 0 <= j < n && 0 <= k < PART_LINE_COUNT ==>
              WriterSongLines(song, n)[PART_LINE_COUNT * j + k] == WriterPartLines(j, song.parts[j])[k]
  {
    if n > 0 {
      WriterSongLayout(song, n - 1);
      var prev := WriterSongLines(song, n - 1);
      var p := WriterPartLines(n - 1, song.parts[n - 1]);
      assert WriterSongLines(song, n) == prev + p;
      forall j, k | 0 <= j < n && 0 <= k < PART_LINE_COUNT
        ensures (prev + p)[PART_LINE_COUNT * j + k] == WriterPartLines(j, song.parts[j])[k]
      {
        PartRow(prev, p, n - 1, j, k);
      }
    }
  }

  lemma WriterBlockNames(i: int, c: int, ch: DrumSequencerChannel)
    requires ValidChannel(ch)
    ensures forall j :: 0 <= j < 4 ==> NamesPart(i, WriterChannelBlock(i, c, ch)[j])
  {
    Line3Names(i, "seq", IntString(c), Spaced(BinTokens(ch.page), PAGES));
    Line3Names(i, "seq", IntString(c) + ".div", IntString(ch.divider));
    Line3Names(i, "seq", IntString(c) + ".ena", if ch.enabled then "1" else "0");
    Line3Names(i, "seq", IntString(c) + ".last", IntString(ch.lastStep));
  }

  /** Every line the writer emits for part `i` is addressed to part `i`. */
  lemma WriterPartLinesName(i: int, part: Part)
    requires ValidPart(part)
    ensures forall l :: l in WriterPartLines(i, part) ==> NamesPart(i, l)
  {
    WriterPartLayout(i, part);
    var l := WriterPartLines(i, part);
    Line1Names(i, IntString(WriterPages(part)) + " " + IntString(part.repeats) + " " + IntString(part.chainTo));
    Line2Names(i, "tempo", IntString(part.tempo.bpm));
    Line2Names(i, "sampler", IntString(part.sampler.bank));
    WriterMixNames(i, part.sampler.mix);
    WriterChannelNames(i, part, l);
    forall k | 0 <= k < |l|
      ensures NamesPart(i, l[k])
    {
      if 3 <= k < 8 {
        assert l[k] == MixLine(i, k - 3, part.sampler.mix[k - 3]);
      }
    }
  }

  lemma WriterMixNames(i: int, mix: seq<u16>)
    ensures forall m :: 0 <= m < |mix| ==> NamesPart(i, MixLine(i, m, mix[m]))
  {
    forall m | 0 <= m < |mix|
      ensures NamesPart(i, MixLine(i, m, mix[m]))
    {
      Line3Names(i, "sampler", IntString(m) + ".mix", IntString(mix[m]));
    }
  }

  /** Lines 8 to 27 of a part, the channel blocks, are addressed to it. */
  lemma WriterChannelNames(i: int, part: Part, l: seq<string>)
    requires ValidPart(part) && |l| == PART_LINE_COUNT
    requires forall c, j :: 0 <= c < DRUM_CHANNELS && 0 <= j < 4 ==>
               l[8 + 4 * c + j] == WriterChannelBlock(i, c, part.drumSequencer.channel[c])[j]
    ensures forall k :: 8 <= k < |l| ==> NamesPart(i, l[k])
  {
    forall k | 8 <= k < |l|
      ensures NamesPart(i, l[k])
    {
      var c := (k - 8) / 4;
      var j := (k - 8) % 4;
      assert k == 8 + 4 * c + j;
      assert l[k] == WriterChannelBlock(i, c, part.drumSequencer.channel[c])[j];
      WriterBlockNames(i, c, part.drumSequencer.channel[c]);
    }
  }

  // ================================================================ reading the lines back

  /** The writer's programmer line sets the page count from channel 0's last
      step (1 to 4 for a last step in range) together with repeats and chainTo. */
  lemma WriterProgrammerEffect(song: Song, i: nat, part: Part)
    requires ValidSong(song) && i < CHANNELS && ValidPart(part) && PartInRange(part)
    ensures 1 <= WriterPages(part) <= PAGES
    ensures WellIndexed(WriterProgrammerLine(i, part))
    ensures var q := song.parts[i];
            ParseCommandSpec(song, WriterProgrammerLine(i, part)).song ==
              WithPart(song, i, q.(pages := part.drumSequencer.channel[0].lastStep / 16 + 1,
                                   repeats := part.repeats, chainTo := part.chainTo))
  {
    var p := part.(pages := WriterPages(part));
    assert ChannelInRange(part.drumSequencer.channel[0]);
    assert PartInRange(p);
    assert WriterProgrammerLine(i, part) == ProgrammerLine(i, p);
    ProgrammerLineEffect(song, i, p);
  }

  /** The writer's steps text sent to channel `c` sets its pages to what
      the binary tokens read back as. */
  lemma WriterStepsRoute(q: Part, c: nat, ch: DrumSequencerChannel)
    requires ValidPart(q) && c < DRUM_CHANNELS && ValidChannel(ch)
    ensures var v := Spaced(BinTokens(ch.page), PAGES);
            Value(v) && Field(IntString(c)) && ModuleIndexed("seq", IntString(c), v) &&
            RouteCommand(q, "seq", IntString(c), v) ==
              Outcome(WithChannel(q, c, q.drumSequencer.channel[c].(page := ReadBack(ch.page))), true)
  {
    var t := BinTokens(ch.page);
    forall k | 0 <= k < PAGES
      ensures Value(t[k]) && ' ' !in t[k] && StepValue(t[k]) == ReadBack(ch.page)[k]
    {
      BinTokenText(ch.page[k]);
      BinTokenValue(ch.page[k]);
    }
    SpacedSplit(t);
    StepsTextRoute(q, c, t, ReadBack(ch.page));
  }

  /** The writer's steps line keeps only the pages of 0x8000 and above; every
      other page reads back as 0. */
  lemma WriterStepsLineEffect(song: Song, i: nat, c: nat, ch: DrumSequencerChannel)
    requires ValidSong(song) && i < CHANNELS && c < DRUM_CHANNELS && ValidChannel(ch)
    ensures WellIndexed(WriterStepsLine(i, c, ch))
    ensures var q := song.parts[i];
            ParseCommandSpec(song, WriterStepsLine(i, c, ch)).song ==
              WithPart(song, i, WithChannel(q, c, q.drumSequencer.channel[c].(page := ReadBack(ch.page))))
  {
    var v := Spaced(BinTokens(ch.page), PAGES);
    WriterStepsRoute(song.parts[i], c, ch);
    TokenizeLine3(i, "seq", IntString(c), v);
    RoutedEffect(song, WriterStepsLine(i, c, ch), i, "seq", IntString(c), v);
  }
}
