# kosmo song manager: a verified model

This project models the Arduino song manager of the kosmo modular synth in
Dafny. The manager keeps a *song*: eight *parts*, each holding the registers
of three I2C slave modules.

- **Tempo:** bpm and morph settings.
- **Drum sequencer:** five channels, each with four 16-step pages, a clock
  divider, a last step and an enable flag.
- **Sampler:** a bank and five mix levels.

The model covers the following components:

- **Song structures.** The structs of `shared.h`, their defaults and the
  `reset*` functions.
- **String helpers.** `splitString`, `isIntValue`, `tryGetInt`,
  `tryParseInt` and `byteToBitMask` from `shared.h`. They are modelled
  together with the parts of the Arduino `String` class they rely on: `trim`,
  `indexOf`, `toInt`, `String(n)`, `String(n, HEX)`, `String(n, BIN)` and
  `strtol`.
- **Line parser.** `SerialSongParser` reads one text command, such as
  `0:seq:2.div=6` or `3=2 1 -1`, into the song. Its `song` field is updated in
  place.
- **Serializer.** `SongSerializer` writes a song as those text lines.
- **Writer.** `SongWriter::convertSongToLines` is the SD-card variant. It
  writes 28 lines per part.
- **EEPROM store.** `SongRepositoryEEPROM` saves the serialized lines into a
  2048-byte slot of an EEPROM byte array. It loads them back by feeding every
  stored line to the parser.
- **I2C master.** `kosmo-comm-master.h` holds the slave table. It polls the
  three slaves with an interval gate and retry counts, reads the
  drum-sequencer block in 32-byte chunks, and sends register blocks and the
  clock commands.
- **Channel.** Playback of one part: steps, pages, repeats, completion, and
  the page LEDs.
- **Button.** `DebounceButton165` debounces a shift-register button and
  latches its press and release events.
- **Mux scanner.** `AnalogMuxScanner` reads 24 potentiometers through three
  8-way multiplexers, with averaging, inversion and hysteresis.

The main results are:

- **Serializer round trip.** Replaying the serialized lines of any song whose
  fields lie in the parser's ranges into a new `Song()` gives exactly
  `RetainedSong(song)`. This is the song with the fields the serializer does
  not write reset to their defaults. After that first pass the round trip is
  stable: saving the reloaded song again writes the same lines.
- **EEPROM round trip.** `SaveSong` followed by `LoadSong` on the same slot
  hands the parser exactly those lines, so it rebuilds the same song.
- **Writer read-back.** The writer's lines do **not** read back intact. A
  binary step word below 0x8000 is shorter than 16 characters, does not start
  with `0b`, and is rejected by `tryParseInt`, so that page reads back as 0.
  `SongWriter.BinTokenValue` and `SongWriter.WriterStepsLineEffect` state
  this. Nothing in the repository reads the writer's file back, so the model
  records this as a property of the writer rather than as a defect.

Fixed-width C integers are modelled as Dafny integers, with the wrap-around
written out where it matters:

- `uint8_t` and `uint16_t` are reduced modulo 2^8 and 2^16;
- `int8_t` is two's complement;
- `unsigned long` time differences are taken modulo 2^32.

I/O is turned into data:

- `Wire` is a scripted transport (`CommMaster.WireBus`). It holds the replies
  to the coming requests, the end statuses of the coming transmissions, and a
  log of the sent transmissions.
- Callbacks become flags plus a trace of the calls made: `Channel` events,
  scanner reports, and the serializer's line list.
- `analogRead` samples are parameters.

## Model

| member | source | states |
|---|---|---|
| CInt.ToU8 | serial-song-parser.h:86 | storing an `int` in a `uint8_t` keeps 0..255 and otherwise reduces modulo 256 |
| CInt.ToI8 | serial-song-parser.h:185 | storing an `int` in an `int8_t` keeps -128..127 and otherwise wraps modulo 256 |
| CInt.ToU32 | DebounceButton165.h:20 | `unsigned long` arithmetic keeps 0..2^32-1 and otherwise wraps modulo 2^32 |
| ArduinoString.TrimLeft | shared.h:130 | `trim` removes the leading white space: the result is no longer than the input and does not start with white space |
| ArduinoString.TrimLeftRemovesSpace | shared.h:130 | the left trim removes white space and nothing else: the result is a suffix of the input and every character removed is white space |
| ArduinoString.TrimRight | shared.h:130 | `trim` removes the trailing white space: the result is no longer than the input and does not end with white space |
| ArduinoString.TrimRightRemovesSpace | shared.h:130 | the right trim removes white space and nothing else: the result is a prefix of the input and every character removed is white space |
| ArduinoString.TrimUnpadded | serial-song-parser.h:263-265 | text that neither starts nor ends with white space is its own trim |
| ArduinoString.IndexOf | serial-song-parser.h:208-212 | `indexOf(c)` is -1 exactly when `c` is absent, and otherwise a position holding `c` |
| ArduinoString.IndexOfFirst | serial-song-parser.h:230-234 | `indexOf` finds the first occurrence: no earlier position holds `c` |
| ArduinoString.IndexOfSplit | serial-song-parser.h:238-242 | in `a + c + b` with `c` not in `a`, `indexOf(c)` is the length of `a` |
| ArduinoString.LeadingDigits | shared.h:132 | the digits `toInt` reads are a prefix of the text made only of digits |
| ArduinoString.NatString | song-serializer.h:14-17 | `String(n)` of a natural number is a nonempty string of digits |
| ArduinoString.IntString | song-serializer.h:14-17 | `String(n)` is never empty |
| ArduinoString.IntStringShape | song-serializer.h:14-17 | `String(n)` is digits with a leading minus exactly for negative numbers, ends in a digit, and has no surrounding white space |
| ArduinoString.DecValueNatString | shared.h:132 | the decimal digits of `String(n)` have the value `n` |
| ArduinoString.LeadingDigitsOfDigits | shared.h:132 | `toInt` stops reading at the first character that is not a digit |
| ArduinoString.ToIntIntString | shared.h:132 | `toInt` reads back exactly the number `String(n)` wrote, whatever non-digit text follows |
| ArduinoString.LeadingHexDigits | shared.h:162 | the digits `strtol(.., 16)` reads are a prefix of hexadecimal digits |
| ArduinoString.HexString | song-serializer.h:49 | `String(n, HEX)` is a nonempty string of hexadecimal digits |
| ArduinoString.BinString | song-writer.h:51 | `String(n, BIN)` is a nonempty string of 0s and 1s |
| SharedStrings.Split | shared.h:79-101 | `splitString` always yields at least one piece |
| SharedStrings.SplitCount | shared.h:80-88 | the number of pieces is the number of delimiters plus one |
| SharedStrings.SplitPiecesFree | shared.h:92-98 | no piece contains the delimiter |
| SharedStrings.SplitJoin | shared.h:92-98 | joining the pieces with the delimiter gives back the input |
| SharedStrings.SplitFree | shared.h:92-98 | text without the delimiter is one piece, itself |
| SharedStrings.SplitAround | shared.h:92-98 | text around a delimiter splits into the pieces of each side |
| SharedStrings.SplitString | shared.h:79-101 | the counting loop and the filling loop produce exactly the pieces of `Split` |
| SharedStrings.DigitsFromAll | shared.h:114-118 | the scan of `isIntValue` from a position accepts exactly when every later character is a digit |
| SharedStrings.IsIntValueMeaning | shared.h:104-120 | `isIntValue` holds exactly for nonempty text that is all digits after at most one leading minus, which is not the whole text |
| SharedStrings.ToIntOfIntValue | shared.h:131-133 | for accepted text, `toInt` gives its signed decimal value |
| SharedStrings.IntStringIsIntValue | shared.h:104-120 | every `String(n)` is accepted by `isIntValue` and has value `n` |
| SharedStrings.ReadInt | shared.h:129-135 | a rejected value leaves the out-parameter 0 |
| SharedStrings.ReadIntToInt | shared.h:131-135 | trimmed text is accepted exactly when `isIntValue` holds, and then the value is `toInt`'s |
| SharedStrings.TryGetInt | shared.h:122-136 | bad bounds or empty data fail with value 0; otherwise the result is that of the trimmed substring; success implies the bounds were valid |
| SharedStrings.TryGetIntAll | shared.h:139-141 | whole-string `tryGetInt` succeeds exactly when the trimmed text is an integer, with its value; on failure the value is 0 |
| SharedStrings.TryGetIntAllWhole | shared.h:139-141 | the one-argument form is the four-argument form on `0..length` |
| SharedStrings.TryGetIntIntString | shared.h:122-141 | a number written by `String(n)` is read back as `n` |
| SharedStrings.TryParseInt | shared.h:143-167 | the method succeeds exactly when `ParseWord` accepts: a trimmed word starting with `0b` or 16 long made of `0`, `1` and `b`, or any word starting with `0x`; the value is the one `ParseWord` gives |
| SharedStrings.BinaryFoldValue | shared.h:147-158 | the binary branch computes the value of the word's 0/1 digits, most significant first, modulo 2^16 |
| SharedStrings.ProbeBitSplits | shared.h:62-75 | each loop step tests a single bit, and the bits not yet tested shrink by exactly that bit, for either bit order |
| SharedStrings.MaskFromCopies | shared.h:62-75 | the remaining loop steps complete the mask to the input byte |
| SharedStrings.ByteToBitMaskIdentity | shared.h:60-77 | `byteToBitMask` returns its input byte, whatever the bit order |
| SongModel.NewSong | shared.h:210-218 | `Song()` has eight parts with fixed-size arrays (five drum channels of four pages, five mix levels) |
| SongModel.ResetSamplerRegisters | shared.h:238-242 | bank 0 and every mix level 0 |
| SongModel.ResetTempoRegisters | shared.h:244-249 | bpm, morph target and morph bars 0, morph off |
| SongModel.ResetDrumSequencerRegisters | shared.h:250-260 | chain mode off; every channel divider 6, last step 0, disabled, all four pages 0 |
| SongModel.ResetPart | shared.h:262-269 | repeats 0, chainTo -1, and tempo, drums and sampler reset; the page count is untouched |
| SongModel.ResetSong | shared.h:271-275 | all eight parts reset, each keeping its page count |
| SongParser.StepPages | serial-song-parser.h:66-73 | page `i` receives token `i`'s value; pages after the last token keep their value |
| SongParser.SerialSongParser.constructor | serial-song-parser.h:191 | the parser holds the given song |
| SongParser.SerialSongParser.IsDividerAllowed | serial-song-parser.h:8-17 | true exactly for 3, 6, 8, 9, 12, 15 and 24 |
| SongParser.SerialSongParser.SetChannel | serial-song-parser.h:45 | one drum channel of one part is replaced and nothing else changes |
| SongParser.SerialSongParser.StoreSteps | serial-song-parser.h:66-73 | the step loop stores token `i`'s `tryParseInt` value, or 0, in page `i` of the channel, and changes nothing else |
| SongParser.SerialSongParser.ParseChannelFunction | serial-song-parser.h:42-79 | the channel and result become those of `ChannelCommand` for `div`, `ena`, `last` or a row of steps |
| SongParser.SerialSongParser.ParseDrumSequencerCommand | serial-song-parser.h:19-80 | the song and result are those of `SeqCommand`: channel `-1` fails, otherwise the channel function runs |
| SongParser.SerialSongParser.ParseTempoCommand | serial-song-parser.h:82-92 | the song and result are those of `TempoCommand` |
| SongParser.SerialSongParser.ParseSamplerCommand | serial-song-parser.h:94-132 | the song and result are those of `SamplerCommand` |
| SongParser.SerialSongParser.ParseSongProgrammerCommand | serial-song-parser.h:134-188 | the song and result are those of `ProgrammerCommand` |
| SongParser.SerialSongParser.ParseCommand | serial-song-parser.h:193-286 | song, return value and `target` are those of `ParseCommandSpec` |
| SongParserFacts.TokenizeRoutes | serial-song-parser.h:194-256 | a line is routed exactly when, trimmed, it is not `init`, not `apply`, does not start with `#`, contains `=` and has at most three `:`-fields |
| SongParserFacts.RejectedCommands | serial-song-parser.h:194-256 | ignored and malformed lines return -1 with target NONE and leave the song unchanged |
| SongParserFacts.RouteFailureKeepsPart | serial-song-parser.h:267-283 | a sub-command that fails leaves its part as it was |
| SongParserFacts.ParseOutcome | serial-song-parser.h:267-285 | on -1 the song is unchanged; otherwise the result is the part index and only that part changed |
| SongParserFacts.TargetByModule | serial-song-parser.h:269-281 | `target` follows the module name (`seq`, `tempo`, `sampler`, anything else is the programmer), whether or not the sub-command succeeds |
| SongParserFacts.DividerRule | serial-song-parser.h:42-49 | `div` succeeds exactly for one integer token in the allowed set, and stores it; on failure the channel is unchanged |
| SongParserFacts.LastStepRule | serial-song-parser.h:57-64 | `last` succeeds exactly for one integer token in 0..63, and stores it; on failure the channel is unchanged |
| SongParserFacts.EnableRule | serial-song-parser.h:50-56 | `ena` with one token succeeds and enables exactly when the token is `1`; more tokens fail with no change |
| SongParserFacts.StepsRule | serial-song-parser.h:65-74 | a row of step tokens always succeeds; page `i` gets the parsed word or 0; nothing else changes |
| SongParserFacts.TempoRule | serial-song-parser.h:82-92 | tempo succeeds exactly for an integer, stored modulo 256 in `bpm` |
| SongParserFacts.SamplerRule | serial-song-parser.h:94-132 | `mix` needs a channel and a value in 0..1023; any other path sets the bank, which needs 0..99; on failure the part is unchanged |
| SongParserFacts.ProgrammerRule | serial-song-parser.h:134-188 | the programmer line succeeds exactly with three integer tokens, pages 0..4, repeats 0..32 and chainTo -1..15, and then sets those three fields |
| SongParserFacts.NewSongInRange | shared.h:178-218 | the defaults of `Song()` lie within the ranges the parser enforces |
| SongParserFacts.ChannelCommandInRange | serial-song-parser.h:42-74 | a channel command keeps the divider allowed and the last step in 0..63 |
| SongParserFacts.RouteInRange | serial-song-parser.h:267-281 | every sub-command keeps its part within the parser's ranges |
| SongParserFacts.ParseKeepsRanges | serial-song-parser.h:193-286 | every line keeps the song within the parser's ranges |
| SongSerializer.Zeros | song-serializer.h:50-51 | the padding is `n` zero characters |
| SongSerializer.PageTokens | song-serializer.h:44-53 | one token per page, each the page's step token |
| SongSerializer.PadPattern | song-serializer.h:50-51 | the padding loop left-pads the pattern with zeros to four characters and leaves longer patterns alone |
| SongSerializer.StepsText | song-serializer.h:44-57 | the four page tokens separated by single spaces |
| SongSerializer.EmitMixLines | song-serializer.h:29-34 | the mix lines of the nonzero mix levels, in channel order |
| SongSerializer.EmitChannelLines | song-serializer.h:37-68 | four lines for each enabled drum channel, in channel order |
| SongSerializer.EmitPart | song-serializer.h:11-68 | the programmer line, then nothing more if the part has no pages, else tempo, bank, mix and channel lines |
| SongSerializer.Serialize | song-serializer.h:9-70 | the lines passed to the callback are those of the eight parts in order |
| SongSerializer.HexValueHexString | song-serializer.h:49 | `String(n, HEX)` has hexadecimal value `n` |
| SongSerializer.HexStringLength | song-serializer.h:49-51 | a value below 16^k is written in at most k hexadecimal digits |
| SongSerializer.HexValueZeros | song-serializer.h:50-51 | leading zeros do not change a hexadecimal value |
| SongSerializer.PaddedHexValue | song-serializer.h:49-52 | the padded pattern of a page is exactly four hexadecimal digits with the page's value |
| SongSerializer.StepTokenRoundTrip | song-serializer.h:44-53 | `tryParseInt` reads back every nonzero page token as its value and rejects the token `0`, which the parser stores as 0 |
| SongSerializer.HexWordParses | shared.h:161-164 | a six-character `0x` word of hexadecimal digits parses as its value |
| SongSerializer.PartLinesName | song-serializer.h:14-67 | every line written for part `i` begins with `i` and then `:` or `=` |
| SongSerializer.PartLinesCount | song-serializer.h:18-20 | a part without pages is one line; otherwise it is 3 plus the nonzero mixes plus four per enabled channel |
| SongSerializer.EnabledCount | song-serializer.h:40-41 | at most `n` of the first `n` channels are enabled |
| SongSerializer.MixLinesLength | song-serializer.h:29-34 | at most one mix line per mix channel |
| SongSerializer.ChannelLinesLength | song-serializer.h:37-68 | exactly four lines per enabled channel |
| SongRoundTrip.ReplayAppend | song-repository-eeprom.h:54-71 | parsing lines `a + b` in order is parsing `a` and then `b` |
| SongRoundTrip.RoutedEffect | serial-song-parser.h:267-285 | a routed line whose sub-command succeeds replaces its part by the sub-command's result |
| SongRoundTrip.ProgrammerLineEffect | song-serializer.h:14-18 | the programmer line is parsed back into the part's pages, repeats and chainTo, and nothing else changes |
| SongRoundTrip.TempoLineEffect | song-serializer.h:23-24 | the tempo line is parsed back into `bpm` |
| SongRoundTrip.BankLineEffect | song-serializer.h:27-28 | the bank line is parsed back into the bank |
| SongRoundTrip.MixLineEffect | song-serializer.h:32-33 | a mix line is parsed back into its mix channel |
| SongRoundTrip.StepsLineEffect | song-serializer.h:43-58 | the steps line is parsed back into all four pages of the channel |
| SongRoundTrip.DivLineEffect | song-serializer.h:60-61 | the divider line is parsed back into the divider |
| SongRoundTrip.EnaLineEffect | song-serializer.h:63-64 | the enable line is parsed back into the enable flag |
| SongRoundTrip.LastLineEffect | song-serializer.h:66-67 | the last-step line is parsed back into the last step |
| SongRoundTrip.MixLinesEffect | song-serializer.h:29-34 | the mix lines set the nonzero mix levels and leave the others as they were |
| SongRoundTrip.BlockHeadEffect | song-serializer.h:43-61 | the steps and divider lines of a channel set its pages and divider |
| SongRoundTrip.BlockEffect | song-serializer.h:43-67 | the four lines of an enabled channel in range set the whole channel |
| SongRoundTrip.ChannelLinesEffect | song-serializer.h:37-68 | the channel lines copy every enabled channel whole and leave disabled channels as they were |
| SongRoundTrip.PartHeadEffect | song-serializer.h:14-28 | programmer, tempo and bank lines set pages, repeats, chainTo, bpm and bank |
| SongRoundTrip.PartBodyEffect | song-serializer.h:22-68 | the lines of a part with pages, replayed over a default part, give the retained part |
| SongRoundTrip.PartLinesEffect | song-serializer.h:11-68 | the lines of any part in range, replayed over a default part, give the retained part |
| SongRoundTrip.SongLinesEffect | song-serializer.h:10-69 | replaying the lines of the first `n` parts into `Song()` restores those parts' retained form and leaves the rest new |
| SongRoundTrip.SerializeRoundTrip | song-serializer.h:9-70 | every serialized line is accepted by the parser, and replaying them into `Song()` gives the retained song |
| SongRoundTrip.RetainedPartIdempotent | song-serializer.h:20-68 | retaining a part twice is retaining it once |
| SongRoundTrip.RetainedPartInRange | song-serializer.h:20-68 | the retained form of a part in range is in range |
| SongRoundTrip.PartLinesRetained | song-serializer.h:20-68 | the serializer writes the same lines for a part and for its retained form |
| SongRoundTrip.SongLinesRetained | song-serializer.h:10-69 | the serializer writes the same lines for a song and for its retained form |
| SongRoundTrip.RetainedSongInRange | song-serializer.h:9-70 | the retained form of a song in range is in range |
| SongRoundTrip.SerializeStable | song-serializer.h:9-70 | saving a reloaded song writes the same lines again, and the reloaded song is its own retained form |
| SongWriter.BinTokens | song-writer.h:51 | one `String(page, BIN)` token per page |
| SongWriter.BinStringShort | song-writer.h:51 | a value below 2^k is written in at most k binary digits |
| SongWriter.BinStringExact | song-writer.h:51 | a value in `[2^(k-1), 2^k)` is written in exactly k binary digits |
| SongWriter.BinaryFoldBinString | song-writer.h:51 | the binary digits of a 16-bit value, read most significant first, give the value |
| SongWriter.BinTokenValue | song-writer.h:51 | a written binary step word reads back through `tryParseInt` as the page value when the page is 0x8000 or more, and as 0 otherwise |
| SongWriter.ReadBack | song-writer.h:50-55 | the pages after the binary words are parsed back: the high pages kept, the others 0 |
| SongWriter.WriterMixLines | song-writer.h:40-43 | one mix line per mix channel, zero or not |
| SongWriter.WriterChannelLines | song-writer.h:46-66 | four lines per drum channel, enabled or not |
| SongWriter.WriterPartLines | song-writer.h:23-67 | every part is written as 28 lines |
| SongWriter.BinaryStepsText | song-writer.h:49-55 | the four binary words separated by single spaces |
| SongWriter.WriteMixLines | song-writer.h:40-43 | the loop writes every mix line in channel order |
| SongWriter.WriteChannelLines | song-writer.h:46-66 | the loop writes every channel block in channel order |
| SongWriter.ConvertSongToLines | song-writer.h:22-68 | the written lines are those of the eight parts in order |
| SongWriter.WriterMixLinesLayout | song-writer.h:40-43 | mix line `m` is the line of mix channel `m` |
| SongWriter.WriterChannelLinesLayout | song-writer.h:46-66 | line `4c + j` is line `j` of channel `c`'s block |
| SongWriter.WriterPartLayout | song-writer.h:23-67 | programmer, tempo and bank lines, then the five mix lines, then the five four-line channel blocks |
| SongWriter.WriterSongLayout | song-writer.h:22-68 | line `28j + k` is line `k` of part `j` |
| SongWriter.WriterPartLinesName | song-writer.h:23-67 | every line written for part `i` is addressed to part `i` |
| SongWriter.WriterProgrammerEffect | song-writer.h:27-31 | the writer's programmer line sets the page count to channel 0's last step / 16 + 1 (1 to 4), and sets repeats and chainTo |
| SongWriter.WriterStepsRoute | song-writer.h:49-56 | the binary steps text sent to a channel sets its pages to their read-back values |
| SongWriter.WriterStepsLineEffect | song-writer.h:49-56 | the writer's steps line keeps only the pages of 0x8000 and above; every other page reads back as 0 |
| SongEeprom.CalculateAddress | song-repository-eeprom.h:25-29 | -1 exactly for an index below 1; otherwise the slot start `(index - 1) * 2048` |
| SongEeprom.SlotsDisjoint | song-repository-eeprom.h:25-29 | distinct slots do not overlap |
| SongEeprom.LineBytes | song-repository-eeprom.h:13-21 | a line is written as its characters' low bytes and a newline |
| SongEeprom.Splice | song-repository-eeprom.h:17-20 | writing bytes from an address changes exactly those cells |
| SongEeprom.ImageAppend | song-repository-eeprom.h:13-21 | writing lines `a + b` writes the bytes of `a` and then those of `b` |
| SongEeprom.SongRepositoryEeprom.constructor | song-repository-eeprom.h:11 | the repository writes to the given EEPROM, with the shared write cursor at 0 |
| SongEeprom.SongRepositoryEeprom.WriteLine | song-repository-eeprom.h:13-21 | the line's bytes and a newline are written at the cursor, which moves past them |
| SongEeprom.SongRepositoryEeprom.WriteLines | song-repository-eeprom.h:13-21 | several lines are written one after the other from the cursor |
| SongEeprom.SongRepositoryEeprom.SaveSong | song-repository-eeprom.h:32-45 | false with nothing written for an index below 1; otherwise the serialized lines and `EOS\n` are written from the slot start and the result is true |
| SongEeprom.ReadExtend | song-repository-eeprom.h:68-70 | a byte other than a newline, before the last cell, extends the partial line |
| SongEeprom.ReadStop | song-repository-eeprom.h:56-61 | a line reading `EOS` ends the load just after its last byte |
| SongEeprom.ReadSkipEmpty | song-repository-eeprom.h:56-67 | an empty line is skipped, and the load ends at the last cell |
| SongEeprom.ReadHandLine | song-repository-eeprom.h:56-67 | a nonempty line other than `EOS` is handed to the parser, and it is the next of the lines the whole read yields |
| SongEeprom.ReadLineEnd | song-repository-eeprom.h:56-67 | at the end of a line: `EOS` stops the read; an empty line is skipped; any other line is handed over; the read goes on unless it is at the last cell |
| SongEeprom.ReadEnd | song-repository-eeprom.h:54 | a read that reaches its end bound has handed over everything |
| SongEeprom.SongRepositoryEeprom.ReadStep | song-repository-eeprom.h:55-70 | one pass of the load loop advances the cursor by one and keeps the loop's reading in step with `LoadFrom`: the line is extended, handed to the parser, skipped when empty, or the loop stops at "EOS" or the end of the EEPROM |
| SongEeprom.SongRepositoryEeprom.EndLine | song-repository-eeprom.h:56-67 | at the end of a line: if the loop stops, the parser has had every line the read yields; otherwise the reading goes on in step with `LoadFrom` from the next cell; either way the song is the replay of the lines handed so far |
| SongEeprom.SongRepositoryEeprom.ReadLines | song-repository-eeprom.h:54-71 | the load loop hands the parser exactly the lines `LoadFrom` reads, in order |
| SongEeprom.SongRepositoryEeprom.LoadSong | song-repository-eeprom.h:47-76 | the result is `Song()` with the slot's lines parsed in order; `success` is always true; a slot that starts past the end of the EEPROM gives a new song and leaves the cursor one cell after the slot's start |
| SongEeprom.LoadPastEnd | song-repository-eeprom.h:54-67 | a slot that starts at or past the end of the EEPROM yields no line, and the read stops one cell after its start |
| SongEeprom.ByteRoundTrip | song-repository-eeprom.h:17-18 | a one-byte character written to the EEPROM reads back as itself |
| SongEeprom.ReadStoredLine | song-repository-eeprom.h:55-66 | a stored line followed by more bytes is handed over whole |
| SongEeprom.ReadEndMarker | song-repository-eeprom.h:40-61 | the stored end marker stops the load just after its first newline |
| SongEeprom.LoadImage | song-repository-eeprom.h:54-71 | storable lines followed by the stored end marker load back as exactly those lines |
| SongEeprom.PartLinesStorable | song-serializer.h:11-68 | every serialized line is nonempty, has no newline, uses one-byte characters and is not `EOS` |
| SongEeprom.SongLinesStorable | song-serializer.h:10-69 | every line of a serialized song can be stored |
| SongEeprom.LoadSaved | song-repository-eeprom.h:13-71 | storable lines written with the end marker from a slot's start load back as exactly those lines |
| SongEeprom.SaveThenLoad | song-repository-eeprom.h:32-76 | loading a slot `SaveSong` has written rebuilds the song's retained form |
| CommMaster.Overwrite | kosmo-comm-master.h:65 | `memcpy` changes exactly the bytes it copies |
| CommMaster.ReplyAt | kosmo-comm-master.h:57-63 | a request receives the scripted reply cut to the requested quantity, or nothing once the script is exhausted |
| CommMaster.WireBus.constructor | kosmo-comm-master.h:25-28 | the bus starts with its scripts and an empty log |
| CommMaster.WireBus.RequestFrom | kosmo-comm-master.h:57-63 | a request consumes one scripted reply and receives at most the requested bytes |
| CommMaster.WireBus.BeginTransmission | kosmo-comm-master.h:154 | a transmission to the address starts empty |
| CommMaster.WireBus.Write | kosmo-comm-master.h:155 | written bytes are appended to the pending transmission |
| CommMaster.WireBus.EndTransmission | kosmo-comm-master.h:156 | the pending transmission is logged and consumes one scripted status |
| CommMaster.ChunkPlan | kosmo-comm-master.h:50-56 | no chunks for an empty block; chunks are nonempty, at most 32 bytes, contiguous, and end at the block's end |
| CommMaster.ChunkInside | kosmo-comm-master.h:55-56 | each chunk lies inside the block |
| CommMaster.ChunkTiling | kosmo-comm-master.h:50-56 | every byte lies in exactly one chunk, number `p / 32` |
| CommMaster.ChunksPrefix | kosmo-comm-master.h:54-67 | the first `n` chunks are the first `32n` bytes, and all of them the whole block |
| CommMaster.DrumRead | kosmo-comm-master.h:54-67 | the chunked read never changes the size of the block |
| CommMaster.DrumReadCells | kosmo-comm-master.h:54-67 | byte `p` of the block takes the reply byte of its chunk when that arrived, and otherwise keeps its value |
| CommMaster.Fetch | kosmo-comm-master.h:99-106 | a slave read never changes the slave table |
| CommMaster.PollStep | kosmo-comm-master.h:93-117 | one slave's turn keeps every register block in size |
| CommMaster.PollUpTo | kosmo-comm-master.h:91-119 | a round so far gives one result per polled slave |
| CommMaster.SettleFacts | kosmo-comm-master.h:96-117 | a polled slave is not in progress afterwards, was polled at `now`, and its retries grow by one exactly on a failure below the limit |
| CommMaster.PollSlaves | kosmo-comm-master.h:91-119 | in a round, a slave the gate lets through is settled with its own read's result; any other slave is untouched and its result false |
| CommMaster.PollRoundSettled | kosmo-comm-master.h:88-125 | a round keeps every slave out of progress, never lowers a retry count and never raises one above the limit |
| CommMaster.ChunkTransmissionAt | kosmo-comm-master.h:151-162 | chunk transmission `k` goes to the slave, carries chunk `k` and is at most 32 bytes |
| CommMaster.ChunksJoin | kosmo-comm-master.h:151-162 | the chunk transmissions together carry the block |
| CommMaster.DrumWrite | kosmo-comm-master.h:143-165 | a drum write sends at most the planned number of chunks |
| CommMaster.DrumWriteMeaning | kosmo-comm-master.h:151-164 | the drum write succeeds exactly when every chunk is acknowledged, and it stops after the first refused one |
| CommMaster.FirstFailure | kosmo-comm-master.h:156-160 | the first refused status among the first `n`, or `n` if all are acknowledged |
| CommMaster.DrumWriteFails | kosmo-comm-master.h:156-160 | a refused chunk `i` after `i` acknowledged ones ends the write, false, after `i + 1` transmissions |
| CommMaster.DrumWriteSucceeds | kosmo-comm-master.h:151-164 | with every chunk acknowledged, all chunks are sent and the result is true |
| CommMaster.SetRoundSends | kosmo-comm-master.h:182-197 | a set round sends `set` plus the tempo block, then the drum chunks up to the first refusal, then the sampler block |
| CommMaster.KosmoCommMaster.constructor | kosmo-comm-master.h:18-23 | slaves 8, 9 and 10, idle, never polled, no retries, each with its register block's size |
| CommMaster.KosmoCommMaster.CopyInto | kosmo-comm-master.h:43 | the register block receives the bytes at the offset |
| CommMaster.KosmoCommMaster.GetRegisters | kosmo-comm-master.h:30-45 | fails on an empty or wrongly sized reply and leaves the block; otherwise copies the reply into the block |
| CommMaster.KosmoCommMaster.GetDrumSequencerRegisters | kosmo-comm-master.h:47-69 | one request per chunk, each copying what arrived; always true |
| CommMaster.KosmoCommMaster.ReadChunks | kosmo-comm-master.h:53-67 | every chunk is requested in turn and the bytes that arrive are copied at the chunk's offset; the block ends as `DrumRead` of the replies |
| CommMaster.KosmoCommMaster.ReadNextChunk | kosmo-comm-master.h:55-66 | one turn of the chunk loop takes the block from `DrumRead` after `k` chunks to `DrumRead` after `k + 1`, consuming one reply |
| CommMaster.KosmoCommMaster.ReadChunk | kosmo-comm-master.h:55-66 | one chunk request copies its reply into the block at the chunk's offset |
| CommMaster.KosmoCommMaster.FetchSlave | kosmo-comm-master.h:99-106 | the read of slave `i` is `Fetch` |
| CommMaster.KosmoCommMaster.PollSlave | kosmo-comm-master.h:93-117 | slave `i`'s turn is `PollStep`: gate, read, retry count, settle |
| CommMaster.KosmoCommMaster.GetSlaveRegisters | kosmo-comm-master.h:88-125 | the round is `PollUpTo` over the three slaves, and the result is true exactly when every slave was read successfully in this round |
| CommMaster.KosmoCommMaster.PollNextSlave | kosmo-comm-master.h:91-119 | one turn of the poll loop extends the round by one slave |
| CommMaster.KosmoCommMaster.AllSucceeded | kosmo-comm-master.h:120-124 | true exactly when every result is true |
| CommMaster.KosmoCommMaster.SetTempoRegisters | kosmo-comm-master.h:127-141 | one transmission of `set` and the block; acknowledged exactly when the status is 0 |
| CommMaster.KosmoCommMaster.SetDrumSequencerRegisters | kosmo-comm-master.h:143-165 | the chunk transmissions up to the first refusal; the result is `DrumWrite`'s |
| CommMaster.KosmoCommMaster.SendChunks | kosmo-comm-master.h:151-162 | chunks go out one transmission each, stopping at the first nonzero status; result, transmissions and statuses consumed are `DrumWrite`'s |
| CommMaster.KosmoCommMaster.SendChunk | kosmo-comm-master.h:152-160 | one transmission carrying chunk `k`, returning its status |
| CommMaster.KosmoCommMaster.SetSamplerRegisters | kosmo-comm-master.h:167-180 | one transmission of the block; acknowledged exactly when the status is 0 |
| CommMaster.KosmoCommMaster.SetSlave | kosmo-comm-master.h:186-195 | slave `i`'s setter sends its transmissions and leaves the table as it was |
| CommMaster.KosmoCommMaster.SetSlaveRegisters | kosmo-comm-master.h:182-197 | the round sends `SetRound`'s transmissions and leaves the table as it was |
| CommMaster.KosmoCommMaster.SetNextSlave | kosmo-comm-master.h:183-196 | one turn of the set loop extends the transmissions by one slave's |
| CommMaster.KosmoCommMaster.StartClock | kosmo-comm-master.h:199-205 | `start` to the tempo slave, the table as it was |
| CommMaster.KosmoCommMaster.StopClock | kosmo-comm-master.h:207-213 | `stop` to the tempo slave, the table as it was |
| CommMaster.PollRoundSettledStep | kosmo-comm-master.h:108-117 | settling one slave keeps the table settled |
| Channel.TicksAdd | channel.h:96-111 | `a` sixteenth notes and then `b` more are `a + b` sixteenth notes |
| Channel.TicksWithinPass | channel.h:104-105 | within a pass the step counts up from 0 by one per sixteenth note |
| Channel.TicksAfterPasses | channel.h:104-109 | a full pass is `lastStep + 1` sixteenth notes and uses one repeat |
| Channel.CompletesAfterRepeats | channel.h:62-109 | a part started with `repeats` ≥ 1 completes first on sixteenth note `repeats * (lastStep + 1) - 1` and on no earlier one |
| Channel.PageLeds | channel.h:71-73 | LED `i` is lit exactly when page `i` is part of the part |
| Channel.BlinkLeds | channel.h:120-125 | a quarter-note edge toggles the current page's LED and shows the page count on the others |
| Channel.BlinkTwice | channel.h:118-125 | two edges restore the current page's LED, one inverts it |
| Channel.LastStepRounding | channel.h:186-190 | `SetLastStep` keeps only whole pages: none for 0, one below 16, `(v + 1) / 16` above; the last step becomes `pages * 16` |
| Channel.PlayheadPassesLastPage | channel.h:153-159 | with 1 to 4 pages, playback from step 0 reaches every page, the last step's page being `pages` (one past the last whole page) |
| Channel.PagesOfRawRange | channel.h:161-164 | over 0..1023 the page count is 0..4, 4 from raw 1000 on, 0 below 250 |
| Channel.RepeatsOfRawRange | channel.h:171-174 | over 0..1023 the repeats are 0..32, 0 at 0 and 32 at 1023 |
| Channel.ChainToOfRawRange | channel.h:181-184 | over 0..1023 the chain target is -1..15, -1 at 0 and 15 at 1023 |
| Channel.RepeatsRawRoundTrip | channel.h:166-174 | `SetRepeats(r)` stores raw `32r - 1`, which reads back as `r - 1` (32 for 32) |
| Channel.Channel.constructor | channel.h:15-35 | zero counters, chainTo -1, not started, LEDs off, no handlers |
| Channel.Channel.SetHandlers | channel.h:50-60 | installs or removes the three handlers and changes nothing else |
| Channel.Channel.Start | channel.h:62-67 | started with `repeats - 1` repeats left (0 for none), and the started event if a handler is installed |
| Channel.Channel.Stop | channel.h:69-76 | not started, LEDs showing the page count, and the stopped event if a handler is installed |
| Channel.Channel.ShowPages | channel.h:71-73 | the LEDs show the page count |
| Channel.Channel.Reset | channel.h:82-90 | not started, step and page 0, all repeats to play, LEDs showing the page count; every other field unchanged |
| Channel.Channel.SixteenthNote | channel.h:96-112 | the playhead ticks; on completion the completed event with chainTo if a handler is installed, otherwise `Stop` |
| Channel.Channel.Pulse | channel.h:92-114 | nothing unless started; on every sixth pulse a sixteenth note; the quarter-note edge is every twelfth pulse |
| Channel.Channel.Run | channel.h:116-127 | nothing unless started; on a quarter-note edge the LEDs blink and the edge is consumed; settings, pulse flag and position unchanged |
| Channel.Channel.IsStarted | channel.h:78-80 | whether the part is playing: the started flag |
| Channel.Channel.PageLedState | channel.h:129-131 | the state of page LED `page`, for `page` in 0..3 |
| Channel.Channel.ChainTo | channel.h:149-151 | the chain target as `uint8_t`: 0..15 read as themselves, "no chain" (-1) reads as 255 |
| Channel.Channel.SetPageCount | channel.h:153-159 | page count stored, last step `pages * 16` (8-bit), LEDs showing the page count; every other field unchanged |
| Channel.Channel.SetPageCountRaw | channel.h:161-164 | raw stored and the page count mapped from it; every other field unchanged |
| Channel.Channel.SetRepeats | channel.h:166-169 | repeats stored and the raw value mapped back; every other field unchanged |
| Channel.Channel.SetRepeatsRaw | channel.h:171-174 | repeats mapped from the raw value, which is then overwritten by the mapped-back value; every other field unchanged |
| Channel.Channel.SetChainTo | channel.h:176-179 | chainTo stored and the raw value mapped back; every other field unchanged |
| Channel.Channel.SetChainToRaw | channel.h:181-184 | chainTo mapped from the raw value, which is then overwritten by the mapped-back value; every other field unchanged |
| Channel.Channel.SetLastStep | channel.h:186-190 | the value only chooses the page count, and the last step becomes that count times 16; every other field unchanged |
| DebounceButton.UpdateStable | DebounceButton165.h:10-30 | the stable state changes exactly when the raw level differs from it and has been steady for the debounce time, and then takes the raw level; a raw change restarts the timer |
| DebounceButton.UpdateLatches | DebounceButton165.h:20-28 | a change to pressed latches the press event, a change to released the release event; neither is cleared by an update |
| DebounceButton.NoInstantChange | DebounceButton165.h:15-22 | with a positive debounce time, a raw change is not accepted by the update that sees it |
| DebounceButton.SteadyLevelAccepted | DebounceButton165.h:20-22 | a raw level steady for the debounce time is accepted |
| DebounceButton.EventsReportedOnce | DebounceButton165.h:33-48 | each query reports its latched event and clears it, so a second query answers false; the stable state is untouched |
| DebounceButton.PressReportedOnce | DebounceButton165.h:10-39 | an update that accepts a press followed by `wasPressed` reports exactly one press |
| DebounceButton.DebounceButton165.constructor | DebounceButton165.h:6-7 | released, no events, timer at zero |
| DebounceButton.DebounceButton165.Update | DebounceButton165.h:10-30 | the state after `update` is `Debounce` on the masked, polarity-corrected bit |
| DebounceButton.DebounceButton165.WasPressed | DebounceButton165.h:33-39 | reports and clears the press event |
| DebounceButton.DebounceButton165.WasReleased | DebounceButton165.h:42-48 | reports and clears the release event |
| DebounceButton.DebounceButton165.IsDown | DebounceButton165.h:51 | the debounced (stable) state of the button |
| MuxScanner.SlotMappingInjective | AnalogMuxScanner.h:90-95 | every (address, input) pair reads a slot of the eight channels, and that slot determines the pair |
| MuxScanner.SlotMappingSurjective | AnalogMuxScanner.h:90-95 | every slot of the eight channels is read by some (address, input) pair |
| MuxScanner.SlotIndex | AnalogMuxScanner.h:93-100 | the slot index `ch * 3 + pot` is `address + 8 * input` |
| MuxScanner.SlotIndexInRange | AnalogMuxScanner.h:97-100 | the slot of a channel the scanner has lies inside its arrays |
| MuxScanner.SampleCount | AnalogMuxScanner.h:25-29 | a reading takes at least one sample |
| MuxScanner.SumBound | AnalogMuxScanner.h:28-29 | samples each at most `bound` sum to at most `bound` per sample |
| MuxScanner.MeanBound | AnalogMuxScanner.h:28-30 | the mean of samples each at most `bound` is at most `bound` |
| MuxScanner.InvertedReadingRange | AnalogMuxScanner.h:24-32 | for 10-bit samples the reading is 1023 minus the mean, with no wrap-around |
| MuxScanner.ConstantSamples | AnalogMuxScanner.h:24-32 | repeating one sample `v` reads `1023 - v`: averaging never changes a steady input |
| MuxScanner.SettleLaw | AnalogMuxScanner.h:102-113 | a reading is reported exactly when it is the slot's first or differs from the stored value by at least the hysteresis; the slot then holds it, otherwise it keeps its value; no other slot changes |
| MuxScanner.SmallMovesIgnored | AnalogMuxScanner.h:106-112 | a reading within the hysteresis of the stored value changes nothing and reports nothing |
| MuxScanner.Distribute | AnalogMuxScanner.h:92-114 | a scan keeps the slot arrays in size |
| MuxScanner.ReportKept | AnalogMuxScanner.h:92-114 | a report for an earlier input stays valid while later inputs update other slots |
| MuxScanner.DistributeReports | AnalogMuxScanner.h:92-114 | every report of a scan names a slot the scanner has, carries the reading of the input that reads it, and the slot holds that value afterwards |
| MuxScanner.SettleReports | AnalogMuxScanner.h:97-113 | handling one input keeps the earlier reports valid and adds a valid one if it reports |
| MuxScanner.NewReport | AnalogMuxScanner.h:105-111 | the report for an input names its own slot and reading |
| MuxScanner.AnalogMuxScanner.constructor | AnalogMuxScanner.h:13-52 | address 0, interval 5 ms, hysteresis 3, one sample per read, every slot 0 and without a reading, no handler |
| MuxScanner.AnalogMuxScanner.SetScanInterval | AnalogMuxScanner.h:65 | stores the interval and changes nothing else |
| MuxScanner.AnalogMuxScanner.SetHysteresis | AnalogMuxScanner.h:66 | stores the hysteresis and changes nothing else |
| MuxScanner.AnalogMuxScanner.SetSamplesPerRead | AnalogMuxScanner.h:67 | stores the sample count, 0 taken as 1 |
| MuxScanner.AnalogMuxScanner.OnChange | AnalogMuxScanner.h:69-71 | installs or removes the handler |
| MuxScanner.AnalogMuxScanner.ReadInvertedAnalog | AnalogMuxScanner.h:24-32 | the value is 1023 minus the integer mean of the samples, as a 16-bit value |
| MuxScanner.AnalogMuxScanner.SumSamples | AnalogMuxScanner.h:28-29 | the summing loop computes the sum of the samples |
| MuxScanner.AnalogMuxScanner.Scan | AnalogMuxScanner.h:74-118 | nothing before the interval has passed (modulo 2^32); otherwise the time is recorded, the three readings are distributed over the address's slots, reported if a handler is installed, and the address moves to the next of 0..7 |
| MuxScanner.AnalogMuxScanner.ScanInput | AnalogMuxScanner.h:92-114 | one pass of the distributing loop extends the scan by one input |
| MuxScanner.AnalogMuxScanner.ScanSlot | AnalogMuxScanner.h:99-113 | an input whose slot belongs to an installed channel settles that slot and reports it exactly when `Settle` says so |
| MuxScanner.AnalogMuxScanner.SettleSlot | AnalogMuxScanner.h:102-113 | the first-reading and hysteresis test of one slot is `Settle`, with its report if a handler is installed |

## Left out

- `Part.pages` is written by the parser and read by the serializer, but `shared.h` does not declare it. The model adds it, defaulting to 0.
- Integer widths: the 16-bit `int` of the AVR target is modelled as an unbounded integer. The parser's `int` values are converted to the field type explicitly: `bpm` modulo 256, `repeats` to `uint8_t`, `chainTo` to `int8_t`.
- Channel: the getters `CurrentPage()`, `PageCount()`, `Repeats()` and `RemainingRepeats()` (channel.h:133-147) return the `uint8_t` fields of the same names unchanged. They are not separate members; the contracts read those fields directly.
- SongEeprom.SongRepositoryEeprom.LoadSong and `SaveSong`: the source keeps `address`, `offset` and `endAddress` in 16-bit `int`. From slot 16 on, `endAddress` (`(index - 1) * 2048 + 2048 + 1000`) passes 32767, and from slot 17 on so does the slot start itself. That signed overflow is undefined in C++. The model computes these addresses as unbounded integers.
- CommMaster.WireBus.RequestFrom and `Write`: the 32-byte buffer of the AVR `Wire` library is not modelled. There, `requestFrom` clamps the quantity to 32 and `write` drops bytes past 32. The model delivers whatever the script holds, up to the requested quantity, and the `KosmoCommMaster` constructor accepts a register block of any size. The real blocks stay within 32 bytes per transfer: the tempo block is 4 bytes (5 with the command byte), the sampler block 11, and the 66-byte drum block goes in 32-byte chunks.
- Undefined behaviour is excluded by preconditions, not modelled:
  - a part index outside 0..7 on a routed line (see `SongParser.WellIndexed` below);
  - a drum channel or mix channel outside the arrays;
  - more than four step tokens;
  - a programmer line with fewer than three tokens (`parts[1]`, `parts[2]`);
  - `LoadSong` with an index below 1, which reads address -1;
  - EEPROM writes past the end of the memory;
  - a button `bitIndex` of 16 or more;
  - a `PageLedState` index outside 0..3.
- SongParser.WellIndexed: the part index must be in 0..7 on every routed line. The source indexes the parts only when the sub-command succeeds, so a failing line such as `9:tempo=abc` (which returns -1) is well defined there but not covered by the model.
- SharedStrings.TryGetInt: the `long` that `toInt()` returns is stored in a 16-bit `int` (shared.h:132). The model keeps the whole value. In the source the truncated value is what the range checks see. So `0:sampler:0.mix=66000` sets 464, `0:seq:0.div=65542` sets 6 and `0:sampler=65540` selects bank 4. The model rejects all three.
- SharedStrings.TryParseInt: the value `tryParseInt` leaves on failure is not stated. Its only caller overwrites it with 0.
- The `Serial` prints and diagnostics are not modelled. The same goes for `setupMaster`/`Wire.begin`, `pinMode`/`begin`, and the `digitalWrite` of the mux address pins.
- `SongWriter::Save` is not modelled, because of the SD file it opens. `writeLine` is modelled as appending to the list of lines.
- `analogRead` samples are parameters of `Scan`.
- MuxScanner.SettleLaw: the scanner's `int` difference is taken as a mathematical absolute difference. For 10-bit readings it never leaves the 16-bit `int` range.
- Register blocks: struct byte layouts and `sizeof` are not modelled. A register block is an opaque byte array whose size is a table entry.
- The `Wire` transport is a script:
  - a request that arrives after the script is exhausted receives nothing;
  - a transmission after the statuses run out ends with status 0.
- SongEeprom.SaveThenLoad: the saved bytes must fit in the EEPROM and within the 3048 bytes `LoadSong` reads. The source does not check either bound.
- Handler callbacks are flags plus a trace of the calls made. Which function is installed is not modelled.
- CommMaster.KosmoCommMaster.SetTempoRegisters: `setKosmoTempoRegisters` is declared `void` but returns a value. The model returns it; `setSlaveRegisters` ignores it.
- Channel: the `DebounceButton165` object it owns and `Button()` are not modelled. The `now` argument of `Run` is unused in the source. `_hasPulse` is set but never read.
- Destructors and `delete[]` are not modelled.
- song-repository.h, integration-tests.h and serial-functions.h are not part of this model. Neither are the `print*` helpers of `shared.h` and `firstSongPart`, which has no return statement.
