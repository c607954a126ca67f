/** The line-command parser of serial-song-parser.h.

    A command line has the shape `<part>[:<module>[:<path>]]=<values>`. The
    tokenising and the effect of each sub-command on one `Part` are pure
    functions here; the class `SerialSongParser` holds the song the C++ class
    refers to and updates it step by step as the C++ methods do, and each of
    its methods is proved equal to the pure description. */
module SongParser {
  import opened CInt
  import opened ArduinoString
  import opened SharedStrings
  import opened SongModel

  /** `allowedDividers`. */
  const ALLOWED_DIVIDERS: seq<int> := [3, 6, 8, 9, 12, 15, 24]

  // ================================================================ tokenising

  /** A command line after `parseCommand`'s first stage: skipped (`init`,
      `apply`, a `#` comment), malformed (no `=`, or more than three `:`
      fields), or routed to a module with a part index, path and values. */
  datatype Command =
    | Skipped
    | Malformed
    | Routed(partIndex: int, moduleName: string, path: string, values: string)

  function Tokenize(command: string): Command
  {
    var c := Trim(command);
    if c == "init" || c == "apply" || IndexOf(c, '#') == 0 then Skipped
    else if IndexOf(c, '=') == -1 then Malformed
    else
      var parts := Split(c, ':');
      if |parts| == 1 then
        var pos := IndexOf(c, '=');
        Routed(ToInt(parts[0]), "song", "", Trim(SubstringFrom(c, pos + 1)))
      else if |parts| == 2 then
        var pos := IndexOf(parts[1], '=');
        Routed(ToInt(parts[0]), Trim(SubstringTo(parts[1], pos)), "", Trim(SubstringFrom(parts[1], pos + 1)))
      else if |parts| == 3 then
        var pos := IndexOf(parts[2], '=');
        Routed(ToInt(parts[0]), Trim(parts[1]), Trim(SubstringTo(parts[2], pos)), Trim(SubstringFrom(parts[2], pos + 1)))
      else Malformed
  }

  /** The module a routed command is dispatched to. */
  function TargetOf(moduleName: string): SlaveEnum
  {
    if moduleName == "seq" then DRUM_SEQUENCER
    else if moduleName == "tempo" then TEMPO
    else if moduleName == "sampler" then SAMPLER
    else PROGRAMMER
  }

  // ================================================================ sub-commands

  /** A sub-command's effect: the part afterwards and whether it succeeded. */
  datatype Outcome = Outcome(part: Part, ok: bool)

  /** The channel and function named by a path such as `2` or `2.div`. */
  datatype Target = Target(channel: int, op: string)

  function SeqTarget(path: string): Target
  {
    var paths := Split(path, '.');
    if |paths| == 1 then Target(ToInt(paths[0]), "")
    else if |paths| == 2 then Target(ToInt(paths[0]), paths[1])
    else Target(-1, "")
  }

  predicate IsStepsForm(op: string) { op != "div" && op != "ena" && op != "last" }

  /** The value a step token stores: its `tryParseInt` value, or 0. */
  function StepValue(token: string): u16
  {
    match ParseWord(token)
    case Parsed(v) => v
    case Rejected => 0
  }

  /** The pages after the step tokens have been stored in order. */
  function StepPages(page: seq<u16>, tokens: seq<string>): (r: seq<u16>)
    requires |tokens| <= |page|
    ensures |r| == |page|
    ensures forall i :: 0 <= i < |tokens| ==> r[i] == StepValue(tokens[i])
    ensures forall i :: |tokens| <= i < |page| ==> r[i] == page[i]
  {
    if tokens == [] then page
    else StepPages(page, tokens[..|tokens| - 1])[|tokens| - 1 := StepValue(tokens[|tokens| - 1])]
  }

  /** The indices `parseDrumSequencerCommand` uses without checking them lie
      in their arrays. */
  predicate SeqIndexed(path: string, data: string)
  {
    var t := SeqTarget(path);
    -1 <= t.channel < DRUM_CHANNELS &&
    (t.channel != -1 && IsStepsForm(t.op) ==> |Split(data, ' ')| <= PAGES)
  }

  /** A drum channel after a sub-command, and whether the sub-command succeeded. */
  datatype ChannelOutcome = ChannelOutcome(channel: DrumSequencerChannel, ok: bool)

  /** The effect of `div`, `ena`, `last` or a row of step tokens on one drum
      channel; a failed sub-command leaves the channel as it was. */
  function ChannelCommand(ch: DrumSequencerChannel, op: string, values: seq<string>): (r: ChannelOutcome)
    requires ValidChannel(ch) && |values| > 0 && (IsStepsForm(op) ==> |values| <= PAGES)
    ensures ValidChannel(r.channel)
  {
    if op == "div" then
      var d := TryGetIntAll(values[0]);
      if |values| == 1 && d.ok && d.value in ALLOWED_DIVIDERS
      then ChannelOutcome(ch.(divider := d.value), true)
      else ChannelOutcome(ch, false)
    else if op == "ena" then
      if |values| == 1 then ChannelOutcome(ch.(enabled := values[0] == "1"), true)
      else ChannelOutcome(ch, false)
    else if op == "last" then
      var n := TryGetIntAll(values[0]);
      if |values| == 1 && n.ok && 0 <= n.value <= 63
      then ChannelOutcome(ch.(lastStep := n.value), true)
      else ChannelOutcome(ch, false)
    else
      ChannelOutcome(ch.(page := StepPages(ch.page, values)), true)
  }

  /** `parseDrumSequencerCommand(partIndex, path, data)` on one part. */
  function SeqCommand(part: Part, path: string, data: string): Outcome
    requires ValidPart(part) && SeqIndexed(path, data)
  {
    var t := SeqTarget(path);
    if t.channel == -1 then Outcome(part, false)
    else
      var o := ChannelCommand(part.drumSequencer.channel[t.channel], t.op, Split(data, ' '));
      Outcome(WithChannel(part, t.channel, o.channel), o.ok)
  }

  /** `parseTempoCommand`: the integer is narrowed into the 8-bit `bpm`. */
  function TempoCommand(part: Part, values: string): Outcome
  {
    var b := TryGetIntAll(values);
    if b.ok then Outcome(part.(tempo := part.tempo.(bpm := ToU8(b.value))), true)
    else Outcome(part, false)
  }

  /** An empty path names the bank, `<ch>.<function>` a channel; any other
      path leaves the function empty, which also falls through to the bank. */
  function SamplerTarget(path: string): Target
  {
    var paths := Split(path, '.');
    if |path| == 0 then Target(-1, "bank")
    else if |paths| == 2 then Target(ToInt(paths[0]), paths[1])
    else Target(-1, "")
  }

  predicate SamplerIndexed(path: string)
  {
    var t := SamplerTarget(path);
    t.op == "mix" ==> -1 <= t.channel < MIX_CHANNELS
  }

  /** `parseSamplerCommand`. */
  function SamplerCommand(part: Part, path: string, values: string): Outcome
    requires ValidPart(part) && SamplerIndexed(path)
  {
    var t := SamplerTarget(path);
    if t.op == "mix" && t.channel == -1 then Outcome(part, false)
    else if t.op == "mix" then
      var m := TryGetIntAll(values);
      if m.ok && 0 <= m.value <= 1023
      then Outcome(part.(sampler := part.sampler.(mix := part.sampler.mix[t.channel := m.value])), true)
      else Outcome(part, false)
    else
      var b := TryGetIntAll(values);
      if b.ok && 0 <= b.value <= 99
      then Outcome(part.(sampler := part.sampler.(bank := b.value)), true)
      else Outcome(part, false)
  }

  /** `parseSongProgrammerCommand`: `pages repeats chainTo`, all three or none.
      The source reads the second and third token even when fewer than three
      were given, hence the requirement. */
  function ProgrammerCommand(part: Part, values: string): Outcome
    requires |Split(values, ' ')| >= 3
  {
    var parts := Split(values, ' ');
    var pages := TryGetIntAll(parts[0]);
    var repeats := TryGetIntAll(parts[1]);
    var chainTo := TryGetIntAll(parts[2]);
    if |parts| == 3 && pages.ok && repeats.ok && chainTo.ok &&
       0 <= pages.value <= 4 && 0 <= repeats.value <= 32 && -1 <= chainTo.value <= 15
    then Outcome(part.(pages := pages.value, repeats := repeats.value, chainTo := chainTo.value), true)
    else Outcome(part, false)
  }

  predicate ModuleIndexed(moduleName: string, path: string, values: string)
  {
    if moduleName == "seq" then SeqIndexed(path, values)
    else if moduleName == "tempo" then true
    else if moduleName == "sampler" then SamplerIndexed(path)
    else |Split(values, ' ')| >= 3
  }

  function RouteCommand(part: Part, moduleName: string, path: string, values: string): Outcome
    requires ValidPart(part) && ModuleIndexed(moduleName, path, values)
  {
    if moduleName == "seq" then SeqCommand(part, path, values)
    else if moduleName == "tempo" then TempoCommand(part, values)
    else if moduleName == "sampler" then SamplerCommand(part, path, values)
    else ProgrammerCommand(part, values)
  }

  // ================================================================ parseCommand

  /** Every index `parseCommand` and its helpers use without a bounds check
      lies in its array. */
  predicate WellIndexed(command: string)
  {
    match Tokenize(command)
    case Routed(p, moduleName, path, values) => 0 <= p < CHANNELS && ModuleIndexed(moduleName, path, values)
    case _ => true
  }

  /** What `parseCommand` leaves behind: the song, its return value and `target`. */
  datatype ParseResult = ParseResult(song: Song, partIndex: int, target: SlaveEnum)

  function ParseCommandSpec(song: Song, command: string): ParseResult
    requires ValidSong(song) && WellIndexed(command)
  {
    match Tokenize(command)
    case Routed(p, moduleName, path, values) =>
      var o := RouteCommand(song.parts[p], moduleName, path, values);
      ParseResult(song.(parts := song.parts[p := o.part]), if o.ok then p else -1, TargetOf(moduleName))
    case _ => ParseResult(song, -1, NONE)
  }

  // ================================================================ the parser object

  class SerialSongParser {
    /** The song the C++ object holds by reference. */
    var song: Song

    constructor (song: Song)
      requires ValidSong(song)
      ensures this.song == song
    {
      this.song := song;
    }

    /** `isDividerAllowed`: a linear search of `allowedDividers`. */
    method IsDividerAllowed(divider: int) returns (allowed: bool)
      ensures allowed <==> divider in {3, 6, 8, 9, 12, 15, 24}
    {
      for i := 0 to |ALLOWED_DIVIDERS|
        invariant divider !in ALLOWED_DIVIDERS[..i]
      {
        if ALLOWED_DIVIDERS[i] == divider {
          return true;
        }
      }
      assert ALLOWED_DIVIDERS[..|ALLOWED_DIVIDERS|] == ALLOWED_DIVIDERS;
      return false;
    }

    method SetChannel(partIndex: int, channel: int, ch: DrumSequencerChannel)
      requires ValidSong(song) && 0 <= partIndex < CHANNELS && 0 <= channel < DRUM_CHANNELS && ValidChannel(ch)
      modifies this
      ensures song == WithPart(old(song), partIndex, WithChannel(old(song).parts[partIndex], channel, ch))
    {
      song := WithPart(song, partIndex, WithChannel(song.parts[partIndex], channel, ch));
    }

    /** The step-token loop of `parseDrumSequencerCommand`: token i goes to
        page i, as its `tryParseInt` value or 0. */
    method StoreSteps(partIndex: int, channel: int, values: array<string>)
      requires ValidSong(song) && 0 <= partIndex < CHANNELS && 0 <= channel < DRUM_CHANNELS
      requires values.Length <= PAGES
      modifies this
      ensures ValidSong(song)
      ensures var ch := old(song).parts[partIndex].drumSequencer.channel[channel];
              song == WithPart(old(song), partIndex,
                               WithChannel(old(song).parts[partIndex], channel, ch.(page := StepPages(ch.page, values[..]))))
    {
      var ch := song.parts[partIndex].drumSequencer.channel[channel];
      ghost var part := song.parts[partIndex];
      WithChannelSame(part, channel);
      WithPartSame(song, partIndex);
      assert ch.(page := StepPages(ch.page, values[..0])) == ch;
      for i := 0 to values.Length
        invariant ValidSong(song)
        invariant song == WithPart(old(song), partIndex,
                                   WithChannel(part, channel, ch.(page := StepPages(ch.page, values[..i]))))
      {
        var parsed, steps := TryParseInt(values[i]);
        if !parsed {
          steps := 0;
        }
        assert values[..i + 1][..i] == values[..i];
        ghost var before := ch.(page := StepPages(ch.page, values[..i]));
        var after := ch.(page := StepPages(ch.page, values[..i])[i := steps]);
        SetChannel(partIndex, channel, after);
        WithChannelTwice(part, channel, before, after);
        WithPartTwice(old(song), partIndex, WithChannel(part, channel, before), WithChannel(part, channel, after));
        assert after == ch.(page := StepPages(ch.page, values[..i + 1]));
      }
      assert values[..values.Length] == values[..];
    }

    /** The second half of `parseDrumSequencerCommand`, once the channel is
        known: the `div`, `ena` and `last` functions and the step tokens. */
    method ParseChannelFunction(partIndex: int, channel: int, op: string, values: array<string>) returns (ok: bool)
      requires ValidSong(song) && 0 <= partIndex < CHANNELS && 0 <= channel < DRUM_CHANNELS
      requires values.Length > 0 && (IsStepsForm(op) ==> values.Length <= PAGES)
      modifies this
      ensures ValidSong(song)
      ensures var part := old(song).parts[partIndex];
              var o := ChannelCommand(part.drumSequencer.channel[channel], op, values[..]);
              song == WithPart(old(song), partIndex, WithChannel(part, channel, o.channel)) && ok == o.ok
    {
      var ch := song.parts[partIndex].drumSequencer.channel[channel];
      WithChannelSame(song.parts[partIndex], channel);
      WithPartSame(song, partIndex);
      var error := false;
      if op == "div" {
        var accepted := false;
        if values.Length == 1 {
          var d := TryGetIntAll(values[0]);
          if d.ok {
            var allowed := IsDividerAllowed(d.value);
            if allowed {
              SetChannel(partIndex, channel, ch.(divider := d.value));
              accepted := true;
            }
          }
        }
        error := !accepted;
      } else if op == "ena" {
        if values.Length == 1 {
          SetChannel(partIndex, channel, ch.(enabled := values[0] == "1"));
        } else {
          error := true;
        }
      } else if op == "last" {
        var accepted := false;
        if values.Length == 1 {
          var n := TryGetIntAll(values[0]);
          if n.ok && 0 <= n.value <= 63 {
            SetChannel(partIndex, channel, ch.(lastStep := n.value));
            accepted := true;
          }
        }
        error := !accepted;
      } else {
        StoreSteps(partIndex, channel, values);
      }
      return !error;
    }

    /** `parseDrumSequencerCommand`. */
    method ParseDrumSequencerCommand(partIndex: int, path: string, data: string) returns (ok: bool)
      requires ValidSong(song) && 0 <= partIndex < CHANNELS && SeqIndexed(path, data)
      modifies this
      ensures ValidSong(song)
      ensures var o := SeqCommand(old(song).parts[partIndex], path, data);
              song == WithPart(old(song), partIndex, o.part) && ok == o.ok
    {
      var paths := SplitString(path, '.');
      var channel := -1;
      var op := "";
      if paths.Length == 1 {
        channel := ToInt(paths[0]);
      } else if paths.Length == 2 {
        channel := ToInt(paths[0]);
        op := paths[1];
      }
      assert SeqTarget(path) == Target(channel, op);
      if channel == -1 {
        WithPartSame(song, partIndex);
        return false;
      }
      var values := SplitString(data, ' ');
      ok := ParseChannelFunction(partIndex, channel, op, values);
    }

    /** `parseTempoCommand`. */
    method ParseTempoCommand(partIndex: int, values: string) returns (ok: bool)
      requires ValidSong(song) && 0 <= partIndex < CHANNELS
      modifies this
      ensures ValidSong(song)
      ensures var o := TempoCommand(old(song).parts[partIndex], values);
              song == WithPart(old(song), partIndex, o.part) && ok == o.ok
    {
      var b := TryGetIntAll(values);
      if b.ok {
        var part := song.parts[partIndex];
        song := WithPart(song, partIndex, part.(tempo := part.tempo.(bpm := ToU8(b.value))));
        return true;
      }
      WithPartSame(song, partIndex);
      return false;
    }

    /** `parseSamplerCommand`. */
    method ParseSamplerCommand(partIndex: int, path: string, values: string) returns (ok: bool)
      requires ValidSong(song) && 0 <= partIndex < CHANNELS && SamplerIndexed(path)
      modifies this
      ensures ValidSong(song)
      ensures var o := SamplerCommand(old(song).parts[partIndex], path, values);
              song == WithPart(old(song), partIndex, o.part) && ok == o.ok
    {
      var paths := SplitString(path, '.');
      var channel := -1;
      var op := "";
      if |path| == 0 {
        op := "bank";
      } else if paths.Length == 2 {
        channel := ToInt(paths[0]);
        op := paths[1];
      }
      WithPartSame(song, partIndex);
      if op == "mix" && channel == -1 {
        return false;
      }
      var part := song.parts[partIndex];
      if op == "mix" {
        var m := TryGetIntAll(values);
        if m.ok && 0 <= m.value <= 1023 {
          song := WithPart(song, partIndex, part.(sampler := part.sampler.(mix := part.sampler.mix[channel := m.value])));
          return true;
        }
        return false;
      } else {
        var b := TryGetIntAll(values);
        if b.ok && 0 <= b.value <= 99 {
          song := WithPart(song, partIndex, part.(sampler := part.sampler.(bank := b.value)));
          return true;
        }
        return false;
      }
    }

    /** `parseSongProgrammerCommand`. */
    method ParseSongProgrammerCommand(partIndex: int, values: string) returns (ok: bool)
      requires ValidSong(song) && 0 <= partIndex < CHANNELS && |Split(values, ' ')| >= 3
      modifies this
      ensures ValidSong(song)
      ensures var o := ProgrammerCommand(old(song).parts[partIndex], values);
              song == WithPart(old(song), partIndex, o.part) && ok == o.ok
    {
      var parts := SplitString(values, ' ');
      // each failed check sets the error flag; none of them returns early
      var error := parts.Length != 3;
      var pages := TryGetIntAll(parts[0]);
      error := error || !pages.ok;
      var repeats := TryGetIntAll(parts[1]);
      error := error || !repeats.ok;
      var chainTo := TryGetIntAll(parts[2]);
      error := error || !chainTo.ok;

      error := error || pages.value < 0 || pages.value > 4;
      error := error || repeats.value < 0 || repeats.value > 32;
      error := error || chainTo.value < -1 || chainTo.value > 15;

      if error {
        WithPartSame(song, partIndex);
        return false;
      }
      var part := song.parts[partIndex];
      song := WithPart(song, partIndex, part.(pages := pages.value, repeats := repeats.value, chainTo := chainTo.value));
      return true;
    }

    /** `parseCommand(command, target)`: returns the part index, or -1. The
        splitting of the line into part index, module, path and values is the
        pure function `Tokenize`. */
    method ParseCommand(command: string) returns (partIndex: int, target: SlaveEnum)
      requires ValidSong(song) && WellIndexed(command)
      modifies this
      ensures ValidSong(song)
      ensures ParseResult(song, partIndex, target) == ParseCommandSpec(old(song), command)
    {
      target := NONE;
      var cmd := Tokenize(command);
      if !cmd.Routed? {
        return -1, target;
      }
      partIndex := cmd.partIndex;
      var moduleName, path, values := cmd.moduleName, cmd.path, cmd.values;

      var result;
      if moduleName == "seq" {
        result := ParseDrumSequencerCommand(partIndex, path, values);
        target := DRUM_SEQUENCER;
      } else if moduleName == "tempo" {
        result := ParseTempoCommand(partIndex, values);
        target := TEMPO;
      } else if moduleName == "sampler" {
        result := ParseSamplerCommand(partIndex, path, values);
        target := SAMPLER;
      } else {
        result := ParseSongProgrammerCommand(partIndex, values);
        target := PROGRAMMER;
      }

      if !result {
        return -1, target;
      }
      return partIndex, target;
    }
  }
}
