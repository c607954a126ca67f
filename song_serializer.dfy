/** `SongSerializer::serialize` (song-serializer.h): the text lines that
    describe a song, in the format `SerialSongParser` reads. The callback
    that receives each line is modelled as appending it to a sequence. */
module SongSerializer {
  import opened CInt
  import opened ArduinoString
  import opened SharedStrings
  import opened SongModel

  // ================================================================ line shapes

  /** `<part>=<values>`: a song-programmer line. */
  function Line1(i: int, values: string): string
  {
    IntString(i) + "=" + values
  }

  /** `<part>:<module>=<values>`. */
  function Line2(i: int, moduleName: string, values: string): string
  {
    IntString(i) + ":" + moduleName + "=" + values
  }

  /** `<part>:<module>:<path>=<values>`. */
  function Line3(i: int, moduleName: string, path: string, values: string): string
  {
    IntString(i) + ":" + moduleName + ":" + path + "=" + values
  }

  // ================================================================ step tokens

  function Zeros(n: nat): (r: string)
    ensures |r| == n && forall k :: 0 <= k < n ==> r[k] == '0'
  {
    seq(n, _ => '0')
  }

  /** The `String(steps, HEX)` pattern left-padded with zeros to four digits. */
  function PaddedHex(v: nat): string
  {
    var h := HexString(v);
    if |h| < 4 then Zeros(4 - |h|) + h else h
  }

  /** The token for one page: "0", or "0x" and at least four hex digits. */
  function StepToken(v: u16): string
  {
    if v == 0 then "0" else "0x" + PaddedHex(v)
  }

  /** The token of each page. */
  function PageTokens(page: seq<u16>): (r: seq<string>)
    ensures |r| == |page| && forall k :: 0 <= k < |page| ==> r[k] == StepToken(page[k])
  {
    seq(|page|, k requires 0 <= k < |page| => StepToken(page[k]))
  }

  /** The first `n` tokens, each but the last token of all followed by a space. */
  function Spaced(tokens: seq<string>, n: nat): string
    requires n <= |tokens|
  {
    if n == 0 then ""
    else Spaced(tokens, n - 1) + tokens[n - 1] + (if n < |tokens| then " " else "")
  }

  /** One more token: followed by a space unless it is the last of all. */
  lemma SpacedNext(tokens: seq<string>, n: nat)
    requires n < |tokens|
    ensures n + 1 < |tokens| ==> Spaced(tokens, n + 1) == Spaced(tokens, n) + tokens[n] + " "
    ensures n + 1 == |tokens| ==> Spaced(tokens, n + 1) == Spaced(tokens, n) + tokens[n]
  {
  }

  // ================================================================ the lines of a part

  function ProgrammerLine(i: int, part: Part): string
  {
    Line1(i, IntString(part.pages) + " " + IntString(part.repeats) + " " + IntString(part.chainTo))
  }

  function TempoLine(i: int, part: Part): string
  {
    Line2(i, "tempo", IntString(part.tempo.bpm))
  }

  function BankLine(i: int, part: Part): string
  {
    Line2(i, "sampler", IntString(part.sampler.bank))
  }

  function MixLine(i: int, m: int, v: int): string
  {
    Line3(i, "sampler", IntString(m) + ".mix", IntString(v))
  }

  function StepsLine(i: int, c: int, ch: DrumSequencerChannel): string
    requires ValidChannel(ch)
  {
    Line3(i, "seq", IntString(c), Spaced(PageTokens(ch.page), PAGES))
  }

  function DivLine(i: int, c: int, ch: DrumSequencerChannel): string
  {
    Line3(i, "seq", IntString(c) + ".div", IntString(ch.divider))
  }

  function EnaLine(i: int, c: int, ch: DrumSequencerChannel): string
  {
    Line3(i, "seq", IntString(c) + ".ena", if ch.enabled then "1" else "0")
  }

  function LastLine(i: int, c: int, ch: DrumSequencerChannel): string
  {
    Line3(i, "seq", IntString(c) + ".last", IntString(ch.lastStep))
  }

  /** The four lines of an enabled channel. */
  function ChannelBlock(i: int, c: int, ch: DrumSequencerChannel): seq<string>
    requires ValidChannel(ch)
  {
    [StepsLine(i, c, ch), DivLine(i, c, ch), EnaLine(i, c, ch), LastLine(i, c, ch)]
  }

  /** Mix lines of the first `n` mix channels; zero mixes are skipped. */
  function MixLines(i: int, mix: seq<u16>, n: nat): seq<string>
    requires n <= |mix|
  {
    if n == 0 then []
    else MixLines(i, mix, n - 1) + (if mix[n - 1] == 0 then [] else [MixLine(i, n - 1, mix[n - 1])])
  }

  /** Channel blocks of the first `n` drum channels; disabled channels are skipped. */
  function ChannelLines(i: int, d: DrumSequencer, n: nat): seq<string>
    requires ValidDrums(d) && n <= DRUM_CHANNELS
  {
    if n == 0 then []
    else
      ChannelLines(i, d, n - 1) +
      (if d.channel[n - 1].enabled then ChannelBlock(i, n - 1, d.channel[n - 1]) else [])
  }

  /** Everything after the programmer line of a part with pages. */
  function PartBody(i: int, part: Part): seq<string>
    requires ValidPart(part)
  {
    [TempoLine(i, part), BankLine(i, part)] +
    MixLines(i, part.sampler.mix, MIX_CHANNELS) +
    ChannelLines(i, part.drumSequencer, DRUM_CHANNELS)
  }

  /** The lines of part `i`: its programmer line, and nothing else when it has
      no pages. */
  function PartLines(i: int, part: Part): seq<string>
    requires ValidPart(part)
  {
    [ProgrammerLine(i, part)] + (if part.pages == 0 then [] else PartBody(i, part))
  }

  /** The lines of the first `n` parts. */
  function SongLines(song: Song, n: nat): seq<string>
    requires ValidSong(song) && n <= CHANNELS
  {
    if n == 0 then [] else SongLines(song, n - 1) + PartLines(n - 1, song.parts[n - 1])
  }

  function SerializedLines(song: Song): seq<string>
    requires ValidSong(song)
  {
    SongLines(song, CHANNELS)
  }

  // ================================================================ serialize

  /** The `while (pattern.length() < 4)` padding loop. */
  method PadPattern(pattern: string) returns (padded: string)
    ensures padded == if |pattern| < 4 then Zeros(4 - |pattern|) + pattern else pattern
  {
    padded := pattern;
    while |padded| < 4
      invariant |padded| >= |pattern| && padded == Zeros(|padded| - |pattern|) + pattern
      invariant |pattern| < 4 ==> |padded| <= 4
      invariant |pattern| >= 4 ==> padded == pattern
      decreases 4 - |padded|
    {
      assert Zeros(|padded| + 1 - |pattern|) == "0" + Zeros(|padded| - |pattern|);
      padded := "0" + padded;
    }
  }

  /** The line of step tokens of one channel, built token by token. */
  method StepsText(page: seq<u16>) returns (text: string)
    requires |page| == PAGES
    ensures text == Spaced(PageTokens(page), PAGES)
  {
    text := "";
    for pageIndex := 0 to PAGES
      invariant text == Spaced(PageTokens(page), pageIndex)
    {
      var steps := page[pageIndex];
      var token;
      if steps == 0 {
        token := "0";
      } else {
        var pattern := HexString(steps);
        pattern := PadPattern(pattern);
        token := "0x" + pattern;
        assert token == StepToken(steps);
      }
      assert token == PageTokens(page)[pageIndex];
      SpacedNext(PageTokens(page), pageIndex);
      text := text + token;
      if pageIndex < 3 {
        text := text + " ";
      }
    }
  }

  /** The mix lines of a part: only mix channels whose value is nonzero. */
  method EmitMixLines(partIndex: int, mix: seq<u16>) returns (lines: seq<string>)
    requires |mix| == MIX_CHANNELS
    ensures lines == MixLines(partIndex, mix, MIX_CHANNELS)
  {
    lines := [];
    for i := 0 to MIX_CHANNELS
      invariant lines == MixLines(partIndex, mix, i)
    {
      if mix[i] == 0 {
        continue;
      }
      lines := lines + [MixLine(partIndex, i, mix[i])];
    }
  }

  /** The drum-sequencer lines of a part: four per enabled channel. */
  method EmitChannelLines(partIndex: int, d: DrumSequencer) returns (lines: seq<string>)
    requires ValidDrums(d)
    ensures lines == ChannelLines(partIndex, d, DRUM_CHANNELS)
  {
    lines := [];
    for channelIndex := 0 to DRUM_CHANNELS
      invariant lines == ChannelLines(partIndex, d, channelIndex)
    {
      var channel := d.channel[channelIndex];
      if !channel.enabled {
        continue;
      }
      var text := StepsText(channel.page);
      lines := lines + [Line3(partIndex, "seq", IntString(channelIndex), text),
                        DivLine(partIndex, channelIndex, channel),
                        EnaLine(partIndex, channelIndex, channel),
                        LastLine(partIndex, channelIndex, channel)];
    }
  }

  /** The lines of one part, in the order `serialize` emits them. */
  method EmitPart(partIndex: int, part: Part) returns (lines: seq<string>)
    requires ValidPart(part)
    ensures lines == PartLines(partIndex, part)
  {
    lines := [ProgrammerLine(partIndex, part)];
    if part.pages == 0 {
      return;
    }
    lines := lines + [TempoLine(partIndex, part), BankLine(partIndex, part)];
    var mixLines := EmitMixLines(partIndex, part.sampler.mix);
    var channelLines := EmitChannelLines(partIndex, part.drumSequencer);
    lines := lines + mixLines + channelLines;
  }

  /** `serialize(song, lineCallback)`: the lines passed to the callback, in order. */
  method Serialize(song: Song) returns (lines: seq<string>)
    requires ValidSong(song)
    ensures lines == SerializedLines(song)
  {
    lines := [];
    for partIndex := 0 to CHANNELS
      invariant lines == SongLines(song, partIndex)
    {
      var partLines := EmitPart(partIndex, song.parts[partIndex]);
      lines := lines + partLines;
    }
  }

  // ================================================================ step tokens read back

  lemma {:induction false} HexValueHexString(n: nat)
    ensures HexValue(HexString(n)) == n
    decreases n
  {
    if n >= 16 {
      HexValueHexString(n / 16);
      var s := HexString(n);
      assert s[..|s| - 1] == HexString(n / 16);
    }
  }

  lemma {:induction false} HexStringLength(n: nat, k: nat)
    requires 1 <= k && n < Pow16(k)
    ensures |HexString(n)| <= k
    decreases k
  {
    if n >= 16 {
      assert k >= 2;
      HexStringLength(n / 16, k - 1);
    }
  }

  lemma {:induction false} ZerosValue(k: nat)
    ensures AllHexDigits(Zeros(k)) && HexValue(Zeros(k)) == 0
    decreases k
  {
    if k > 0 {
      assert Zeros(k)[..k - 1] == Zeros(k - 1);
      ZerosValue(k - 1);
    }
  }

  /** Leading zeros do not change a hexadecimal value. */
  lemma {:induction false} HexValueZeros(k: nat, s: string)
    requires AllHexDigits(s)
    ensures AllHexDigits(Zeros(k) + s) && HexValue(Zeros(k) + s) == HexValue(s)
    decreases |s|
  {
    if s == [] {
      assert Zeros(k) + s == Zeros(k);
      ZerosValue(k);
    } else {
      var t := Zeros(k) + s;
      assert t[..|t| - 1] == Zeros(k) + s[..|s| - 1];
      HexValueZeros(k, s[..|s| - 1]);
    }
  }

  lemma {:induction false} LeadingHexDigitsAll(s: string)
    requires AllHexDigits(s)
    ensures LeadingHexDigits(s) == s
    decreases |s|
  {
    if s != [] {
      LeadingHexDigitsAll(s[1..]);
    }
  }

  /** The padded pattern of a page is exactly four hexadecimal digits whose
      value is the page. */
  lemma PaddedHexValue(v: u16)
    ensures |PaddedHex(v)| == 4 && AllHexDigits(PaddedHex(v)) && HexValue(PaddedHex(v)) == v
  {
    var h := HexString(v);
    HexValueHexString(v);
    assert Pow16(4) == 0x1_0000;
    HexStringLength(v, 4);
    if |h| < 4 {
      HexValueZeros(4 - |h|, h);
    }
  }

  /** `tryParseInt` reads back every page value the serializer writes: a
      nonzero page parses as itself, and the "0" token of an empty page is
      rejected, which the parser stores as 0. */
  lemma StepTokenRoundTrip(v: u16)
    ensures v != 0 ==> ParseWord(StepToken(v)) == Parsed(v)
    ensures v == 0 ==> ParseWord(StepToken(v)) == Rejected
  {
    var t := StepToken(v);
    if v != 0 {
      var h := PaddedHex(v);
      PaddedHexValue(v);
      assert t == "0x" + h;
      assert t[2..] == h;
      HexWordParses(t);
    } else {
      assert Trim(t) == t;
    }
  }

  /** A six-character "0x" word of hexadecimal digits parses as its value. */
  lemma HexWordParses(t: string)
    requires |t| == 6 && t[..2] == "0x" && AllHexDigits(t[2..])
    ensures ParseWord(t) == Parsed(ToU16(HexValue(t[2..])))
  {
    assert IsHexDigit(t[5]) by { assert t[5] == t[2..][3]; }
    assert Unpadded(t);
    TrimUnpadded(t);
    assert !StartsWith(t, "0b") by { assert t[..2][1] == 'x'; }
    LeadingHexDigitsAll(t[2..]);
    HexValueBound(t[2..]);
    assert Pow16(4) == 0x1_0000;
    assert StartsWith(t, "0x");
    assert !TakesBinaryBranch(Trim(t));
    assert StrtolHex(t) == HexValue(t[2..]);
  }

  lemma {:induction false} HexValueBound(s: string)
    requires AllHexDigits(s)
    ensures HexValue(s) < Pow16(|s|)
    decreases |s|
  {
    if s != [] {
      HexValueBound(s[..|s| - 1]);
    }
  }

  function Pow16(k: nat): (r: nat)
    ensures r >= 1
  {
    if k == 0 then 1 else 16 * Pow16(k - 1)
  }

  // ================================================================ every line names its part

  /** `l` begins with the decimal part index followed by `:` or `=`. */
  predicate NamesPart(i: int, l: string)
  {
    var p := IntString(i);
    |l| > |p| && l[..|p|] == p && (l[|p|] == ':' || l[|p|] == '=')
  }

  lemma Line1Names(i: int, v: string)
    ensures NamesPart(i, Line1(i, v))
  {
    var p := IntString(i);
    assert Line1(i, v) == p + ("=" + v);
    assert Line1(i, v)[..|p|] == p;
  }

  lemma Line2Names(i: int, m: string, v: string)
    ensures NamesPart(i, Line2(i, m, v))
  {
    var p := IntString(i);
    assert Line2(i, m, v) == p + (":" + m + "=" + v);
    assert Line2(i, m, v)[..|p|] == p;
  }

  lemma Line3Names(i: int, m: string, path: string, v: string)
    ensures NamesPart(i, Line3(i, m, path, v))
  {
    var p := IntString(i);
    assert Line3(i, m, path, v) == p + (":" + m + ":" + path + "=" + v);
    assert Line3(i, m, path, v)[..|p|] == p;
  }

  lemma {:induction false} MixLinesName(i: int, mix: seq<u16>, n: nat)
    requires n <= |mix|
    ensures forall l :: l in MixLines(i, mix, n) ==> NamesPart(i, l)
    decreases n
  {
    if n > 0 {
      MixLinesName(i, mix, n - 1);
      Line3Names(i, "sampler", IntString(n - 1) + ".mix", IntString(mix[n - 1]));
    }
  }

  lemma {:induction false} ChannelLinesName(i: int, d: DrumSequencer, n: nat)
    requires ValidDrums(d) && n <= DRUM_CHANNELS
    ensures forall l :: l in ChannelLines(i, d, n) ==> NamesPart(i, l)
    decreases n
  {
    if n > 0 {
      ChannelLinesName(i, d, n - 1);
      var c := n - 1;
      var ch := d.channel[c];
      Line3Names(i, "seq", IntString(c), Spaced(PageTokens(ch.page), PAGES));
      Line3Names(i, "seq", IntString(c) + ".div", IntString(ch.divider));
      Line3Names(i, "seq", IntString(c) + ".ena", if ch.enabled then "1" else "0");
      Line3Names(i, "seq", IntString(c) + ".last", IntString(ch.lastStep));
    }
  }

  /** Every line of part `i` begins with `i` and a `:` or `=`, so the parser
      routes it back to part `i`. */
  lemma PartLinesName(i: int, part: Part)
    requires ValidPart(part)
    ensures forall l :: l in PartLines(i, part) ==> NamesPart(i, l)
  {
    Line1Names(i, IntString(part.pages) + " " + IntString(part.repeats) + " " + IntString(part.chainTo));
    Line2Names(i, "tempo", IntString(part.tempo.bpm));
    Line2Names(i, "sampler", IntString(part.sampler.bank));
    MixLinesName(i, part.sampler.mix, MIX_CHANNELS);
    ChannelLinesName(i, part.drumSequencer, DRUM_CHANNELS);
  }

  /** A part without pages is written as its programmer line alone; a part
      with pages adds a tempo line, a bank line, at most five mix lines and
      four lines per enabled channel. */
  lemma {:induction false} PartLinesCount(i: int, part: Part)
    requires ValidPart(part)
    ensures part.pages == 0 ==> |PartLines(i, part)| == 1
    ensures part.pages != 0 ==>
              |PartLines(i, part)| == 3 + |MixLines(i, part.sampler.mix, MIX_CHANNELS)| +
                                      4 * EnabledCount(part.drumSequencer, DRUM_CHANNELS) &&
              |PartLines(i, part)| <= 3 + MIX_CHANNELS + 4 * DRUM_CHANNELS
  {
    if part.pages != 0 {
      MixLinesLength(i, part.sampler.mix, MIX_CHANNELS);
      ChannelLinesLength(i, part.drumSequencer, DRUM_CHANNELS);
    }
  }

  /** The number of enabled channels among the first `n`. */
  function EnabledCount(d: DrumSequencer, n: nat): (k: nat)
    requires ValidDrums(d) && n <= DRUM_CHANNELS
    ensures k <= n
  {
    if n == 0 then 0 else EnabledCount(d, n - 1) + (if d.channel[n - 1].enabled then 1 else 0)
  }

  lemma {:induction false} MixLinesLength(i: int, mix: seq<u16>, n: nat)
    requires n <= |mix|
    ensures |MixLines(i, mix, n)| <= n
    decreases n
  {
    if n > 0 {
      MixLinesLength(i, mix, n - 1);
    }
  }

  lemma {:induction false} ChannelLinesLength(i: int, d: DrumSequencer, n: nat)
    requires ValidDrums(d) && n <= DRUM_CHANNELS
    ensures |ChannelLines(i, d, n)| == 4 * EnabledCount(d, n)
    decreases n
  {
    if n > 0 {
      ChannelLinesLength(i, d, n - 1);
    }
  }
}
