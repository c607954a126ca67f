/** What `parseCommand` promises about the lines it rejects, the parts it
    touches, the target it reports and the ranges it enforces. */
module SongParserFacts {
  import opened CInt
  import opened ArduinoString
  import opened SharedStrings
  import opened SongModel
  import opened SongParser

  // ================================================================ rejected lines

  /** A line is routed to a module exactly when it is not `init`, not `apply`,
      not a `#` comment, contains `=`, and has at most three `:` fields. */
  lemma TokenizeRoutes(command: string)
    ensures var c := Trim(command);
            Tokenize(command).Routed? <==>
              c != "init" && c != "apply" && !(|c| > 0 && c[0] == '#') && '=' in c && Count(c, ':') <= 2
  {
    var c := Trim(command);
    SplitCount(c, ':');
    if |c| > 0 && c[0] == '#' {
      assert IndexOf(c, '#') == 0;
    }
  }

  /** Ignored and malformed lines return -1 with target NONE and change nothing. */
  lemma RejectedCommands(song: Song, command: string)
    requires ValidSong(song) && WellIndexed(command)
    requires var c := Trim(command);
             c == "init" || c == "apply" || (|c| > 0 && c[0] == '#') || '=' !in c || Count(c, ':') > 2
    ensures ParseCommandSpec(song, command) == ParseResult(song, -1, NONE)
  {
    TokenizeRoutes(command);
  }

  // ================================================================ what changes

  /** A sub-command that fails leaves its part as it was. */
  lemma RouteFailureKeepsPart(part: Part, moduleName: string, path: string, values: string)
    requires ValidPart(part) && ModuleIndexed(moduleName, path, values)
    ensures var o := RouteCommand(part, moduleName, path, values);
            ValidPart(o.part) && (!o.ok ==> o.part == part)
  {
    if moduleName == "seq" {
      var t := SeqTarget(path);
      if t.channel != -1 {
        WithChannelSame(part, t.channel);
      }
    }
  }

  /** On failure (-1) the song is unchanged; on success the result is the
      line's part index, and every other part is unchanged. */
  lemma ParseOutcome(song: Song, command: string)
    requires ValidSong(song) && WellIndexed(command)
    ensures var r := ParseCommandSpec(song, command);
            ValidSong(r.song) &&
            (r.partIndex == -1 ==> r.song == song) &&
            (r.partIndex != -1 ==>
               Tokenize(command).Routed? && r.partIndex == Tokenize(command).partIndex &&
               0 <= r.partIndex < CHANNELS &&
               forall j :: 0 <= j < CHANNELS && j != r.partIndex ==> r.song.parts[j] == song.parts[j])
  {
    match Tokenize(command)
    case Routed(p, moduleName, path, values) =>
      RouteFailureKeepsPart(song.parts[p], moduleName, path, values);
      var o := RouteCommand(song.parts[p], moduleName, path, values);
      if !o.ok {
        assert song.parts[p := o.part] == song.parts;
      }
    case _ =>
  }

  /** `target` follows the module name, whether or not the sub-command
      succeeds; lines that are not routed leave it NONE. */
  lemma TargetByModule(song: Song, command: string)
    requires ValidSong(song) && WellIndexed(command)
    ensures var r := ParseCommandSpec(song, command);
            match Tokenize(command)
            case Routed(_, m, _, _) =>
              (m == "seq" ==> r.target == DRUM_SEQUENCER) &&
              (m == "tempo" ==> r.target == TEMPO) &&
              (m == "sampler" ==> r.target == SAMPLER) &&
              (m != "seq" && m != "tempo" && m != "sampler" ==> r.target == PROGRAMMER)
            case _ => r.target == NONE && r.partIndex == -1
  {
  }

  // ================================================================ sub-commands

  /** `div` is accepted only for one integer token in {3,6,8,9,12,15,24}, and
      then only the divider changes. */
  lemma DividerRule(ch: DrumSequencerChannel, values: seq<string>)
    requires ValidChannel(ch) && |values| > 0
    ensures var o := ChannelCommand(ch, "div", values);
            (o.ok <==> |values| == 1 && IsIntValue(Trim(values[0])) &&
                       SignedDecimal(Trim(values[0])) in {3, 6, 8, 9, 12, 15, 24}) &&
            (o.ok ==> o.channel == ch.(divider := SignedDecimal(Trim(values[0])))) &&
            (!o.ok ==> o.channel == ch)
  {
  }

  /** `last` is accepted only for one integer token in 0..63. */
  lemma LastStepRule(ch: DrumSequencerChannel, values: seq<string>)
    requires ValidChannel(ch) && |values| > 0
    ensures var o := ChannelCommand(ch, "last", values);
            (o.ok <==> |values| == 1 && IsIntValue(Trim(values[0])) &&
                       0 <= SignedDecimal(Trim(values[0])) <= 63) &&
            (o.ok ==> o.channel == ch.(lastStep := SignedDecimal(Trim(values[0])))) &&
            (!o.ok ==> o.channel == ch)
  {
  }

  /** `ena` with one token enables the channel exactly when the token is "1". */
  lemma EnableRule(ch: DrumSequencerChannel, values: seq<string>)
    requires ValidChannel(ch) && |values| > 0
    ensures var o := ChannelCommand(ch, "ena", values);
            (o.ok <==> |values| == 1) &&
            (o.ok ==> o.channel.enabled == (values[0] == "1") &&
                      o.channel == ch.(enabled := o.channel.enabled)) &&
            (!o.ok ==> o.channel == ch)
  {
  }

  /** A row of step tokens always succeeds: page i receives the `tryParseInt`
      value of token i, or 0 when the token does not parse; pages beyond the
      tokens and all other fields are kept. */
  lemma StepsRule(ch: DrumSequencerChannel, op: string, values: seq<string>)
    requires ValidChannel(ch) && 0 < |values| <= PAGES && IsStepsForm(op)
    ensures var o := ChannelCommand(ch, op, values);
            o.ok &&
            o.channel.divider == ch.divider && o.channel.lastStep == ch.lastStep &&
            o.channel.enabled == ch.enabled && |o.channel.page| == PAGES &&
            (forall i :: 0 <= i < |values| ==>
               o.channel.page[i] == (if ParseWord(values[i]).Parsed? then ParseWord(values[i]).value else 0)) &&
            (forall i :: |values| <= i < PAGES ==> o.channel.page[i] == ch.page[i])
  {
    var o := ChannelCommand(ch, op, values);
    forall i | 0 <= i < |values|
      ensures o.channel.page[i] == (if ParseWord(values[i]).Parsed? then ParseWord(values[i]).value else 0)
    {
      assert o.channel.page[i] == StepValue(values[i]);
    }
  }

  /** Tempo accepts any integer and keeps it modulo 256 in `bpm`. */
  lemma TempoRule(part: Part, values: string)
    ensures var o := TempoCommand(part, values);
            (o.ok <==> IsIntValue(Trim(values))) &&
            (o.ok ==> o.part == part.(tempo := part.tempo.(bpm := o.part.tempo.bpm)) &&
                      (o.part.tempo.bpm - SignedDecimal(Trim(values))) % 256 == 0) &&
            (!o.ok ==> o.part == part)
  {
  }

  /** Sampler: `mix` needs a channel and a value in 0..1023; every other path
      sets the bank, which needs a value in 0..99. */
  lemma SamplerRule(part: Part, path: string, values: string)
    requires ValidPart(part) && SamplerIndexed(path)
    ensures var t := SamplerTarget(path);
            var o := SamplerCommand(part, path, values);
            var good := IsIntValue(Trim(values));
            (t.op == "mix" ==>
               (o.ok <==> t.channel != -1 && good && 0 <= SignedDecimal(Trim(values)) <= 1023) &&
               (o.ok ==> o.part == part.(sampler := part.sampler.(mix := part.sampler.mix[t.channel := SignedDecimal(Trim(values))])))) &&
            (t.op != "mix" ==>
               (o.ok <==> good && 0 <= SignedDecimal(Trim(values)) <= 99) &&
               (o.ok ==> o.part == part.(sampler := part.sampler.(bank := SignedDecimal(Trim(values)))))) &&
            (|path| == 0 ==> t.op == "bank") &&
            (!o.ok ==> o.part == part)
  {
  }

  /** The song-programmer line needs exactly three integer tokens in range and
      then sets pages, repeats and chainTo together. */
  lemma ProgrammerRule(part: Part, values: string)
    requires |Split(values, ' ')| >= 3
    ensures var parts := Split(values, ' ');
            var o := ProgrammerCommand(part, values);
            (o.ok <==> |parts| == 3 &&
                       IsIntValue(Trim(parts[0])) && 0 <= SignedDecimal(Trim(parts[0])) <= 4 &&
                       IsIntValue(Trim(parts[1])) && 0 <= SignedDecimal(Trim(parts[1])) <= 32 &&
                       IsIntValue(Trim(parts[2])) && -1 <= SignedDecimal(Trim(parts[2])) <= 15) &&
            (o.ok ==> o.part == part.(pages := SignedDecimal(Trim(parts[0])),
                                      repeats := SignedDecimal(Trim(parts[1])),
                                      chainTo := SignedDecimal(Trim(parts[2])))) &&
            (!o.ok ==> o.part == part)
  {
  }

  // ================================================================ ranges

  /** The ranges the parser enforces on a drum channel. */
  predicate ChannelInRange(c: DrumSequencerChannel)
  {
    c.divider in {3, 6, 8, 9, 12, 15, 24} && 0 <= c.lastStep <= 63
  }

  /** The ranges the parser enforces on a part (bpm is not range-checked). */
  predicate PartInRange(p: Part)
    requires ValidPart(p)
  {
    0 <= p.pages <= 4 && p.repeats <= 32 && -1 <= p.chainTo <= 15 && p.sampler.bank <= 99 &&
    (forall m :: 0 <= m < MIX_CHANNELS ==> p.sampler.mix[m] <= 1023) &&
    (forall c :: 0 <= c < DRUM_CHANNELS ==> ChannelInRange(p.drumSequencer.channel[c]))
  }

  predicate SongInRange(s: Song)
    requires ValidSong(s)
  {
    forall i :: 0 <= i < CHANNELS ==> PartInRange(s.parts[i])
  }

  lemma NewSongInRange()
    ensures SongInRange(NewSong())
  {
    var s := NewSong();
    forall i | 0 <= i < CHANNELS
      ensures PartInRange(s.parts[i])
    {
      assert s.parts[i] == DefaultPart();
    }
  }

  lemma ChannelCommandInRange(ch: DrumSequencerChannel, op: string, values: seq<string>)
    requires ValidChannel(ch) && |values| > 0 && (IsStepsForm(op) ==> |values| <= PAGES)
    requires ChannelInRange(ch)
    ensures ChannelInRange(ChannelCommand(ch, op, values).channel)
  {
  }

  lemma RouteInRange(part: Part, moduleName: string, path: string, values: string)
    requires ValidPart(part) && ModuleIndexed(moduleName, path, values) && PartInRange(part)
    ensures PartInRange(RouteCommand(part, moduleName, path, values).part)
  {
    if moduleName == "seq" {
      var t := SeqTarget(path);
      if t.channel != -1 {
        var ch := part.drumSequencer.channel[t.channel];
        ChannelCommandInRange(ch, t.op, Split(values, ' '));
        var r := SeqCommand(part, path, values).part;
        forall c | 0 <= c < DRUM_CHANNELS
          ensures ChannelInRange(r.drumSequencer.channel[c])
        {
        }
      }
    }
  }

  /** Every line the parser accepts keeps the song within the parser's ranges. */
  lemma ParseKeepsRanges(song: Song, command: string)
    requires ValidSong(song) && WellIndexed(command) && SongInRange(song)
    ensures SongInRange(ParseCommandSpec(song, command).song)
  {
    match Tokenize(command)
    case Routed(p, moduleName, path, values) =>
      RouteInRange(song.parts[p], moduleName, path, values);
      var r := ParseCommandSpec(song, command).song;
      forall i | 0 <= i < CHANNELS
        ensures PartInRange(r.parts[i])
      {
        if i != p {
          assert r.parts[i] == song.parts[i];
        }
      }
    case _ =>
  }
}
