/** The song data structures of shared.h (`TempoRegisters`, `SamplerRegisters`,
    `DrumSequencerChannel`, `DrumSequencer`, `Part`, `Song`), their default
    member values, the `SlaveEnum` targets and the `reset*` functions.

    C++ structs are values; a function that mutates a struct through a
    reference is modelled as a method that takes the old value and returns
    the new one. */
module SongModel {
  import opened CInt

  /** Parts per song (`CHANNELS` in shared.h). */
  const CHANNELS: int := 8
  const DRUM_CHANNELS: int := 5
  const PAGES: int := 4
  const MIX_CHANNELS: int := 5

  datatype SlaveEnum = TEMPO | DRUM_SEQUENCER | SAMPLER | PROGRAMMER | ALL | NONE

  datatype TempoRegisters = TempoRegisters(bpm: u8, morphTargetBpm: u8, morphBars: u8, morphEnabled: bool)

  datatype SamplerRegisters = SamplerRegisters(bank: u8, mix: seq<u16>)

  datatype DrumSequencerChannel = DrumSequencerChannel(page: seq<u16>, divider: int, lastStep: int, enabled: bool)

  datatype DrumSequencer = DrumSequencer(channel: seq<DrumSequencerChannel>, chainModeEnabled: bool)

  /** `pages` is not declared in shared.h's `Part` but is written by the song
      parser and read by the serializer; it is modelled as an `int`. */
  datatype Part = Part(pages: int, repeats: u8, chainTo: i8, tempo: TempoRegisters,
                       drumSequencer: DrumSequencer, sampler: SamplerRegisters)

  datatype Song = Song(parts: seq<Part>)

  // ---------------------------------------------------------------- shapes

  predicate ValidChannel(c: DrumSequencerChannel) { |c.page| == PAGES }

  predicate ValidDrums(d: DrumSequencer)
  {
    |d.channel| == DRUM_CHANNELS && forall i :: 0 <= i < DRUM_CHANNELS ==> ValidChannel(d.channel[i])
  }

  predicate ValidSampler(s: SamplerRegisters) { |s.mix| == MIX_CHANNELS }

  predicate ValidPart(p: Part) { ValidDrums(p.drumSequencer) && ValidSampler(p.sampler) }

  /** The fixed array sizes of the C++ structs. */
  predicate ValidSong(s: Song)
  {
    |s.parts| == CHANNELS && forall i :: 0 <= i < CHANNELS ==> ValidPart(s.parts[i])
  }

  // ---------------------------------------------------------------- defaults

  function DefaultTempo(): TempoRegisters { TempoRegisters(120, 100, 4, false) }

  function DefaultSampler(): SamplerRegisters { SamplerRegisters(0, [0, 0, 0, 0, 0]) }

  function DefaultChannel(): DrumSequencerChannel { DrumSequencerChannel([0, 0, 0, 0], 6, 0, false) }

  /** `chainModeEnabled` has no member initializer; `Part()` value-initializes
      and so zeroes it. */
  function DefaultDrums(): DrumSequencer
  {
    DrumSequencer(seq(DRUM_CHANNELS, _ => DefaultChannel()), false)
  }

  function DefaultPart(): Part { Part(0, 0, -1, DefaultTempo(), DefaultDrums(), DefaultSampler()) }

  /** `Song()`: every part is `Part()`. */
  function NewSong(): (s: Song)
    ensures ValidSong(s)
  {
    Song(seq(CHANNELS, _ => DefaultPart()))
  }

  // ---------------------------------------------------------------- updates

  function WithChannel(p: Part, c: int, ch: DrumSequencerChannel): (r: Part)
    requires ValidPart(p) && 0 <= c < DRUM_CHANNELS && ValidChannel(ch)
    ensures ValidPart(r)
  {
    p.(drumSequencer := p.drumSequencer.(channel := p.drumSequencer.channel[c := ch]))
  }

  function WithPart(s: Song, i: int, p: Part): (r: Song)
    requires ValidSong(s) && 0 <= i < CHANNELS && ValidPart(p)
    ensures ValidSong(r)
  {
    s.(parts := s.parts[i := p])
  }

  lemma WithChannelSame(p: Part, c: int)
    requires ValidPart(p) && 0 <= c < DRUM_CHANNELS
    ensures WithChannel(p, c, p.drumSequencer.channel[c]) == p
  {
    assert p.drumSequencer.channel[c := p.drumSequencer.channel[c]] == p.drumSequencer.channel;
  }

  lemma WithChannelTwice(p: Part, c: int, x: DrumSequencerChannel, y: DrumSequencerChannel)
    requires ValidPart(p) && 0 <= c < DRUM_CHANNELS && ValidChannel(x) && ValidChannel(y)
    ensures WithChannel(WithChannel(p, c, x), c, y) == WithChannel(p, c, y)
  {
    assert p.drumSequencer.channel[c := x][c := y] == p.drumSequencer.channel[c := y];
  }

  lemma WithPartSame(s: Song, i: int)
    requires ValidSong(s) && 0 <= i < CHANNELS
    ensures WithPart(s, i, s.parts[i]) == s
  {
    assert s.parts[i := s.parts[i]] == s.parts;
  }

  lemma WithPartTwice(s: Song, i: int, a: Part, b: Part)
    requires ValidSong(s) && 0 <= i < CHANNELS && ValidPart(a) && ValidPart(b)
    ensures WithPart(WithPart(s, i, a), i, b) == WithPart(s, i, b)
  {
    assert s.parts[i := a][i := b] == s.parts[i := b];
  }

  // ---------------------------------------------------------------- reset

  predicate TempoIsReset(t: TempoRegisters)
  {
    t.bpm == 0 && t.morphTargetBpm == 0 && t.morphBars == 0 && !t.morphEnabled
  }

  predicate SamplerIsReset(s: SamplerRegisters)
  {
    s.bank == 0 && |s.mix| == MIX_CHANNELS && forall i :: 0 <= i < MIX_CHANNELS ==> s.mix[i] == 0
  }

  predicate ChannelIsReset(c: DrumSequencerChannel)
  {
    c.divider == 6 && c.lastStep == 0 && !c.enabled &&
    |c.page| == PAGES && forall p :: 0 <= p < PAGES ==> c.page[p] == 0
  }

  predicate DrumsAreReset(d: DrumSequencer)
  {
    !d.chainModeEnabled &&
    |d.channel| == DRUM_CHANNELS && forall i :: 0 <= i < DRUM_CHANNELS ==> ChannelIsReset(d.channel[i])
  }

  predicate PartIsReset(p: Part)
  {
    p.repeats == 0 && p.chainTo == -1 &&
    TempoIsReset(p.tempo) && DrumsAreReset(p.drumSequencer) && SamplerIsReset(p.sampler)
  }

  /** `resetSamplerRegisters(regs)`. */
  method ResetSamplerRegisters(regs: SamplerRegisters) returns (r: SamplerRegisters)
    requires ValidSampler(regs)
    ensures SamplerIsReset(r)
  {
    r := regs.(bank := 0);
    for i := 0 to MIX_CHANNELS
      invariant r.bank == 0 && |r.mix| == MIX_CHANNELS
      invariant forall j :: 0 <= j < i ==> r.mix[j] == 0
    {
      r := r.(mix := r.mix[i := 0]);
    }
  }

  /** `resetTempoRegisters(regs)`. */
  method ResetTempoRegisters(regs: TempoRegisters) returns (r: TempoRegisters)
    ensures TempoIsReset(r)
  {
    r := regs.(bpm := 0);
    r := r.(morphTargetBpm := 0);
    r := r.(morphBars := 0);
    r := r.(morphEnabled := false);
  }

  /** `resetDrumSequencerRegisters(regs)`: every channel and every page. */
  method ResetDrumSequencerRegisters(regs: DrumSequencer) returns (r: DrumSequencer)
    requires ValidDrums(regs)
    ensures DrumsAreReset(r)
  {
    r := regs.(chainModeEnabled := false);
    for i := 0 to DRUM_CHANNELS
      invariant !r.chainModeEnabled && ValidDrums(r)
      invariant forall j :: 0 <= j < i ==> ChannelIsReset(r.channel[j])
    {
      var ch := r.channel[i].(divider := 6, lastStep := 0, enabled := false);
      for p := 0 to PAGES
        invariant ch.divider == 6 && ch.lastStep == 0 && !ch.enabled && |ch.page| == PAGES
        invariant forall q :: 0 <= q < p ==> ch.page[q] == 0
      {
        ch := ch.(page := ch.page[p := 0]);
      }
      r := r.(channel := r.channel[i := ch]);
    }
  }

  /** `resetPart(part)`: everything but the part's page count. */
  method ResetPart(part: Part) returns (r: Part)
    requires ValidPart(part)
    ensures ValidPart(r) && PartIsReset(r)
    ensures r.pages == part.pages
  {
    r := part.(repeats := 0, chainTo := -1);
    var tempo := ResetTempoRegisters(r.tempo);
    var drums := ResetDrumSequencerRegisters(r.drumSequencer);
    var sampler := ResetSamplerRegisters(r.sampler);
    r := r.(tempo := tempo, drumSequencer := drums, sampler := sampler);
  }

  /** `resetSong(song)`: all eight parts are reset; nothing else changes. */
  method ResetSong(song: Song) returns (r: Song)
    requires ValidSong(song)
    ensures ValidSong(r)
    ensures forall i :: 0 <= i < CHANNELS ==> PartIsReset(r.parts[i]) && r.parts[i].pages == song.parts[i].pages
  {
    r := song;
    for i := 0 to CHANNELS
      invariant ValidSong(r)
      invariant forall j :: 0 <= j < i ==> PartIsReset(r.parts[j]) && r.parts[j].pages == song.parts[j].pages
      invariant forall j :: i <= j < CHANNELS ==> r.parts[j] == song.parts[j]
    {
      var p := ResetPart(r.parts[i]);
      r := r.(parts := r.parts[i := p]);
    }
  }
}
