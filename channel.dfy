/** `Channel`: the playback position of one song part on one drum channel,
    driven by 24 clock pulses per quarter note. Every 16th note the step
    advances up to `lastStep` and wraps, counting the part's repeats down;
    on the last step of the last repeat the part is completed. Four page
    LEDs show the part's pages, the current one blinking on quarter notes.
    Callbacks become a trace of events; whether a handler is installed is a
    flag. */
module Channel {
  import opened CInt

  const PAGE_LEDS: nat := 4
  const STEPS_PER_PAGE: nat := 16

  /** Callback invocations, in order. `PartCompleted` takes the chain
      target as `uint8_t`, so a chain target of -1 arrives as 255. */
  datatype Event = PartCompleted(channelNumber: u8, chainTo: u8)
                 | PartStarted(channelNumber: u8)
                 | PartStopped(channelNumber: u8)

  // ================================================================ the playhead

  /** Where playback is: the step and the repeats still to play after the
      current pass. */
  datatype Playhead = Playhead(currentStep: u8, remainingRepeats: u8)

  /** The part completes on a 16th note that finds it on its last step with
      no repeats left. */
  predicate Completes(p: Playhead, lastStep: u8)
  {
    p.currentStep == lastStep && p.remainingRepeats == 0
  }

  /** The playhead after one 16th note: the next step, or step 0 with one
      repeat fewer (`uint8_t`, so 0 wraps to 255). */
  function Tick(p: Playhead, lastStep: u8): Playhead
  {
    if p.currentStep < lastStep then p.(currentStep := p.currentStep + 1)
    else Playhead(0, ToU8(p.remainingRepeats - 1))
  }

  /** The playhead after `n` 16th notes. */
  function Ticks(p: Playhead, lastStep: u8, n: nat): Playhead
  {
    if n == 0 then p else Tick(Ticks(p, lastStep, n - 1), lastStep)
  }

  lemma {:induction false} TicksAdd(p: Playhead, lastStep: u8, a: nat, b: nat)
    ensures Ticks(Ticks(p, lastStep, a), lastStep, b) == Ticks(p, lastStep, a + b)
    decreases b
  {
    if b > 0 {
      TicksAdd(p, lastStep, a, b - 1);
    }
  }

  /** Within a pass the step counts up from 0 one per 16th note. */
  lemma {:induction false} TicksWithinPass(lastStep: u8, remaining: u8, k: nat)
    requires k <= lastStep
    ensures Ticks(Playhead(0, remaining), lastStep, k) == Playhead(k, remaining)
    decreases k
  {
    if k > 0 {
      TicksWithinPass(lastStep, remaining, k - 1);
    }
  }

  /** A full pass is `lastStep + 1` 16th notes and uses one repeat. */
  lemma {:induction false} TicksAfterPasses(lastStep: u8, remaining: u8, q: nat, k: nat)
    requires q <= remaining && k <= lastStep
    ensures Ticks(Playhead(0, remaining), lastStep, q * (lastStep + 1) + k) == Playhead(k, remaining - q)
    decreases q
  {
    var start := Playhead(0, remaining);
    if q == 0 {
      TicksWithinPass(lastStep, remaining, k);
    } else {
      var pass := lastStep + 1;
      var before := (q - 1) * pass + lastStep;
      var n := q * pass + k;
      assert before + (1 + k) == n by {
        MulPred(q, pass);
      }
      var last := Playhead(lastStep, remaining - (q - 1));
      var next := Playhead(0, remaining - q);
      assert Ticks(start, lastStep, before) == last by {
        TicksAfterPasses(lastStep, remaining, q - 1, lastStep);
      }
      assert Ticks(start, lastStep, n) == Ticks(last, lastStep, 1 + k) by {
        TicksAdd(start, lastStep, before, 1 + k);
      }
      assert Ticks(last, lastStep, 1 + k) == Ticks(next, lastStep, k) by {
        TicksAdd(last, lastStep, 1, k);
        assert Ticks(last, lastStep, 1) == next;
      }
      TicksWithinPass(lastStep, remaining - q, k);
    }
  }

  /** A part started from step 0 with `repeats` (at least 1) passes to play
      completes on 16th note number `repeats * (lastStep + 1)` and on no
      earlier one. `Start` leaves `repeats - 1` repeats to play. */
  lemma CompletesAfterRepeats(lastStep: u8, repeats: u8, n: nat)
    requires repeats >= 1 && n < repeats * (lastStep + 1)
    ensures Completes(Ticks(Playhead(0, repeats - 1), lastStep, n), lastStep) <==> n == repeats * (lastStep + 1) - 1
  {
    var pass := lastStep + 1;
    var q := n / pass;
    var k := n % pass;
    DivModOf(n, pass, q, k);
    assert q < repeats by {
      if q >= repeats {
        MulMono(repeats, q, pass);
      }
    }
    TicksAfterPasses(lastStep, repeats - 1, q, k);
    MulPred(repeats, pass);
    if n == repeats * pass - 1 {
      DivModOf(n, pass, repeats - 1, lastStep);
    }
  }

  // ================================================================ page LEDs

  /** LED `i` is lit iff page `i` is part of the part. */
  function PageLeds(pageCount: u8): (r: seq<bool>)
    ensures |r| == PAGE_LEDS
    ensures forall i :: 0 <= i < PAGE_LEDS ==> (r[i] <==> i < pageCount)
  {
    [0 < pageCount, 1 < pageCount, 2 < pageCount, 3 < pageCount]
  }

  /** `Run` on a quarter-note edge: the current page's LED toggles, every
      other shows whether its page is part of the part. */
  function BlinkLeds(leds: seq<bool>, currentPage: u8, pageCount: u8): (r: seq<bool>)
    requires |leds| == PAGE_LEDS
    ensures |r| == PAGE_LEDS
  {
    seq(PAGE_LEDS, i requires 0 <= i < PAGE_LEDS => if i != currentPage then i < pageCount else !leds[i])
  }

  /** The current page's LED blinks: two edges restore it, one inverts it,
      and the other LEDs show the page count after either. */
  lemma BlinkTwice(leds: seq<bool>, currentPage: u8, pageCount: u8)
    requires |leds| == PAGE_LEDS
    ensures var once := BlinkLeds(leds, currentPage, pageCount);
            var twice := BlinkLeds(once, currentPage, pageCount);
            (currentPage < PAGE_LEDS ==> once[currentPage] == !leds[currentPage] && twice[currentPage] == leds[currentPage]) &&
            forall i :: 0 <= i < PAGE_LEDS && i != currentPage ==> once[i] == twice[i] == PageLeds(pageCount)[i]
  {
  }

  // ================================================================ page count and last step

  /** `SetPageCount(n)`: the last step is `n * 16` as `uint8_t`. */
  function LastStepOfPages(pageCount: u8): u8
  {
    ToU8(pageCount * STEPS_PER_PAGE)
  }

  /** The page count `SetLastStep(v)` derives: none for 0, one below 16,
      `(v + 1) / 16` otherwise. */
  function PagesOfLastStep(value: u8): u8
  {
    if value == 0 then 0 else if value < 16 then 1 else (value + 1) / 16
  }

  /** What `SetLastStep(v)` ends with. The pages are the whole pages `v`
      covers, except that a value below 16 makes one page, and the last step
      becomes `16 * pages`: the step just after the last page, so a part of
      `p` pages plays `16 * p + 1` steps and its playhead reaches page `p`.
      A value of 255 yields 16 pages and a last step of 0 after wrapping. */
  lemma LastStepRounding(value: u8)
    ensures var pages := PagesOfLastStep(value);
            (value == 0 ==> pages == 0) &&
            (1 <= value < 16 ==> pages == 1) &&
            (value >= 16 ==> 16 * pages <= value + 1 < 16 * (pages + 1)) &&
            (value < 64 ==> pages <= 4 && LastStepOfPages(pages) == 16 * pages) &&
            (value == 255 ==> pages == 16 && LastStepOfPages(pages) == 0)
  {
  }

  /** After `SetPageCount(p)` with 1 to 4 pages, playing from step 0 reaches
      step `16 * p` on the last 16th note of a pass, which lies on page `p`,
      one past the part's pages. */
  lemma PlayheadPassesLastPage(pageCount: u8, remaining: u8)
    requires 1 <= pageCount <= 4
    ensures var last := LastStepOfPages(pageCount);
            Ticks(Playhead(0, remaining), last, last).currentStep == last &&
            last / STEPS_PER_PAGE == pageCount
  {
    TicksWithinPass(LastStepOfPages(pageCount), remaining, LastStepOfPages(pageCount));
  }

  // ================================================================ the raw setters

  /** `map(raw, 0, 1000, 0, 4)` passed as `uint8_t`. */
  function PagesOfRaw(raw: u16): u8
  {
    ToU8(ArduinoMap(raw, 0, 1000, 0, 4))
  }

  /** `map(raw, 0, 1023, 0, 32)` passed as `uint8_t`. */
  function RepeatsOfRaw(raw: u16): u8
  {
    ToU8(ArduinoMap(raw, 0, 1023, 0, 32))
  }

  /** `map(repeats, 0, 32, 0, 1023)` stored as `uint16_t`. */
  function RawOfRepeats(repeats: u8): u16
  {
    ToU16(ArduinoMap(repeats, 0, 32, 0, 1023))
  }

  /** `map(raw, 0, 1023, -1, 15)` passed as `int8_t`. */
  function ChainToOfRaw(raw: u16): i8
  {
    ToI8(ArduinoMap(raw, 0, 1023, -1, 15))
  }

  /** `map(chainTo, -1, 15, 0, 1023)` stored as `uint16_t`. */
  function RawOfChainTo(chainTo: i8): u16
  {
    ToU16(ArduinoMap(chainTo, -1, 15, 0, 1023))
  }

  /** Over the potentiometer's range 0..1023 the page count is 0..4, and 4
      exactly from 1000 up. */
  lemma PagesOfRawRange(raw: u16)
    requires raw <= 1023
    ensures PagesOfRaw(raw) <= 4 && (PagesOfRaw(raw) == 4 <==> raw >= 1000)
    ensures raw < 250 ==> PagesOfRaw(raw) == 0
  {
    assert ArduinoMap(raw, 0, 1000, 0, 4) == raw * 4 / 1000;
  }

  /** Over 0..1023 the repeats are 0..32, from 0 at one end to 32 at the
      other. */
  lemma RepeatsOfRawRange(raw: u16)
    requires raw <= 1023
    ensures RepeatsOfRaw(raw) <= 32 && RepeatsOfRaw(0) == 0 && RepeatsOfRaw(1023) == 32
  {
    assert ArduinoMap(raw, 0, 1023, 0, 32) == raw * 32 / 1023;
    MulMono(raw, 1023, 32);
    DivAtMost(raw * 32, 1023, 32);
    DivModOf(1023 * 32, 1023, 32, 0);
    assert ArduinoMap(1023, 0, 1023, 0, 32) == 32;
  }

  /** Over 0..1023 the chain target is -1..15, from -1 at one end to 15 at
      the other. */
  lemma ChainToOfRawRange(raw: u16)
    requires raw <= 1023
    ensures -1 <= ChainToOfRaw(raw) <= 15 && ChainToOfRaw(0) == -1 && ChainToOfRaw(1023) == 15
  {
    assert ArduinoMap(raw, 0, 1023, -1, 15) == raw * 16 / 1023 - 1;
    MulMono(raw, 1023, 16);
    DivAtMost(raw * 16, 1023, 16);
    DivModOf(1023 * 16, 1023, 16, 0);
    assert ArduinoMap(1023, 0, 1023, -1, 15) == 15;
  }

  /** `SetRepeats(r)` stores raw `32r - 1` for 1..32 repeats, and that raw
      value read back through `SetRepeatsRaw` gives one repeat fewer, except
      at 32: the two maps are not inverse. */
  lemma RepeatsRawRoundTrip(repeats: u8)
    requires 1 <= repeats <= 32
    ensures RawOfRepeats(repeats) == 32 * repeats - 1
    ensures RepeatsOfRaw(RawOfRepeats(repeats)) == if repeats < 32 then repeats - 1 else 32
  {
    assert ArduinoMap(repeats, 0, 32, 0, 1023) == repeats * 1023 / 32;
    DivModOf(repeats * 1023, 32, 32 * repeats - 1, 32 - repeats);
    var raw := 32 * repeats - 1;
    assert ArduinoMap(raw, 0, 1023, 0, 32) == raw * 32 / 1023;
    if repeats < 32 {
      DivModOf(raw * 32, 1023, repeats - 1, 991 + repeats);
    } else {
      DivModOf(raw * 32, 1023, 32, 0);
    }
  }

  // ================================================================ the channel

  datatype ChannelSettings = ChannelSettings(pageCountRaw: u16, repeatsRaw: u16, chainToRaw: u16,
                                             pageCount: u8, repeats: u8, chainTo: i8, lastStep: u8,
                                             onPartCompleted: bool, onPartStarted: bool, onPartStopped: bool)

  class Channel {
    const channelNumber: u8

    var pageCountRaw: u16
    var repeatsRaw: u16
    var chainToRaw: u16
    var pageCount: u8
    var repeats: u8
    var chainTo: i8
    var remainingRepeats: u8
    var started: bool

    var hasPulse: bool
    var currentStep: u8
    var lastStep: u8
    var currentPage: u8
    /** `_pageLedState[4]`. */
    const pageLedState: array<bool>
    var quarterNoteEdge: bool

    /** Which of the three handlers are installed. */
    var onPartCompleted: bool
    var onPartStarted: bool
    var onPartStopped: bool
    /** The handler calls made so far. */
    var events: seq<Event>

    predicate Valid()
      reads this
    {
      pageLedState.Length == PAGE_LEDS
    }

    function Position(): Playhead
      reads this
    {
      Playhead(currentStep, remainingRepeats)
    }

    /** What only the setters and the handler registration change. */
    function Settings(): ChannelSettings
      reads this
    {
      ChannelSettings(pageCountRaw, repeatsRaw, chainToRaw, pageCount, repeats, chainTo, lastStep,
                      onPartCompleted, onPartStarted, onPartStopped)
    }

    /** `Channel(channelNumber, bitIndex)`, without the button it owns. */
    constructor (channelNumber: u8)
      ensures Valid() && this.channelNumber == channelNumber
      ensures pageCount == 0 && repeats == 0 && chainTo == -1 && remainingRepeats == 0 && !started
      ensures currentStep == 0 && lastStep == 0 && currentPage == 0 && !quarterNoteEdge && !hasPulse
      ensures pageCountRaw == 0 && repeatsRaw == 0 && chainToRaw == 0
      ensures pageLedState[..] == PageLeds(0) && fresh(pageLedState)
      ensures !onPartCompleted && !onPartStarted && !onPartStopped && events == []
    {
      this.channelNumber := channelNumber;
      pageCountRaw := 0;
      repeatsRaw := 0;
      chainToRaw := 0;
      pageCount := 0;
      repeats := 0;
      chainTo := -1;
      remainingRepeats := 0;
      started := false;
      hasPulse := false;
      currentStep := 0;
      lastStep := 0;
      currentPage := 0;
      pageLedState := new bool[4](_ => false);
      quarterNoteEdge := false;
      onPartCompleted := false;
      onPartStarted := false;
      onPartStopped := false;
      events := [];
    }

    /** `OnPartCompleted`, `OnPartStarted`, `OnPartStopped`: install (or,
        with `nullptr`, remove) a handler. */
    method SetHandlers(completed: bool, started': bool, stopped: bool)
      modifies this
      ensures onPartCompleted == completed && onPartStarted == started' && onPartStopped == stopped
      ensures unchanged(this`events, this`started, this`currentStep, this`remainingRepeats)
      ensures unchanged(this`pageCount, this`lastStep, this`repeats, this`chainTo)
      ensures unchanged(this`quarterNoteEdge, this`hasPulse, this`currentPage, this`pageCountRaw, this`repeatsRaw, this`chainToRaw)
    {
      onPartCompleted := completed;
      onPartStarted := started';
      onPartStopped := stopped;
    }

    /** `Start()`: one pass is about to be played, so one repeat fewer
        remains (none for zero repeats). */
    method Start()
      modifies this
      ensures remainingRepeats == (if repeats > 0 then repeats - 1 else 0) && started
      ensures events == old(events) + (if onPartStarted then [PartStarted(channelNumber)] else [])
      ensures Settings() == old(Settings())
      ensures unchanged(this`currentStep, this`currentPage, this`quarterNoteEdge, this`hasPulse)
    {
      remainingRepeats := if repeats > 0 then repeats - 1 else 0;
      started := true;
      if onPartStarted {
        events := events + [PartStarted(channelNumber)];
      }
    }

    /** `Stop()`: not started; the LEDs show the page count. */
    method Stop()
      requires Valid()
      modifies this, pageLedState
      ensures Valid() && !started && pageLedState[..] == PageLeds(pageCount)
      ensures events == old(events) + (if onPartStopped then [PartStopped(channelNumber)] else [])
      ensures Settings() == old(Settings())
      ensures unchanged(this`currentStep, this`currentPage, this`remainingRepeats, this`quarterNoteEdge, this`hasPulse)
    {
      started := false;
      ShowPages();
      if onPartStopped {
        events := events + [PartStopped(channelNumber)];
      }
    }

    /** The loop that sets LED `i` to `i < pageCount`. */
    method ShowPages()
      requires Valid()
      modifies pageLedState
      ensures pageLedState[..] == PageLeds(pageCount)
    {
      for i := 0 to 4
        invariant forall k :: 0 <= k < i ==> pageLedState[k] == (k < pageCount)
      {
        pageLedState[i] := i < pageCount;
      }
    }

    /** `IsStarted()`: whether the part is playing. */
    function IsStarted(): (r: bool)
      reads this
      ensures r <==> started
    {
      started
    }

    /** `Reset()`: back to step 0 of page 0 with all repeats to play, not
        started, the LEDs showing the page count. */
    method Reset()
      requires Valid()
      modifies this, pageLedState
      ensures Valid() && !started && pageLedState[..] == PageLeds(pageCount)
      ensures currentPage == 0 && currentStep == 0 && remainingRepeats == repeats
      ensures Settings() == old(Settings())
      ensures unchanged(this`events, this`quarterNoteEdge, this`hasPulse)
    {
      started := false;
      ShowPages();
      currentPage := 0;
      currentStep := 0;
      remainingRepeats := repeats;
    }

    /** The 16th-note part of `Pulse`: the part completes if it is on its
        last step with no repeats left — through the handler, or by stopping
        when there is none — and the playhead ticks. */
    method SixteenthNote()
      requires Valid()
      modifies this, pageLedState
      ensures Valid() && Settings() == old(Settings())
      ensures hasPulse == old(hasPulse) && quarterNoteEdge == old(quarterNoteEdge)
      ensures Position() == Tick(old(Position()), lastStep) && currentPage == currentStep / 16
      ensures var completes := Completes(old(Position()), lastStep);
              (completes && !onPartCompleted ==>
                 !started && pageLedState[..] == PageLeds(pageCount) &&
                 events == old(events) + (if onPartStopped then [PartStopped(channelNumber)] else [])) &&
              (!(completes && !onPartCompleted) ==>
                 started == old(started) && unchanged(pageLedState) &&
                 events == old(events) + (if completes then [PartCompleted(channelNumber, ToU8(chainTo))] else []))
    {
      if currentStep == lastStep && remainingRepeats == 0 {
        if onPartCompleted {
          events := events + [PartCompleted(channelNumber, ToU8(chainTo))];
        } else {
          Stop();
        }
      }
      if currentStep < lastStep {
        currentStep := currentStep + 1;
      } else {
        currentStep := 0;
        remainingRepeats := ToU8(remainingRepeats - 1);
      }
      currentPage := currentStep / 16;
    }

    /** `Pulse(pulses)`: nothing unless started. On every 16th note (pulses
        divisible by 6) the playhead ticks, completing the part on its last
        step with no repeats left; the quarter-note edge is raised iff
        pulses is divisible by 12. */
    method Pulse(pulses: u8)
      requires Valid()
      modifies this, pageLedState
      ensures Valid()
      ensures !old(started) ==> unchanged(this) && unchanged(pageLedState)
      ensures old(started) ==> hasPulse && quarterNoteEdge == (pulses % 12 == 0) && Settings() == old(Settings())
      ensures old(started) && pulses % 6 == 0 ==>
                Position() == Tick(old(Position()), lastStep) && currentPage == currentStep / 16 &&
                var completes := Completes(old(Position()), lastStep);
                (completes && !onPartCompleted ==>
                   !started && pageLedState[..] == PageLeds(pageCount) &&
                   events == old(events) + (if onPartStopped then [PartStopped(channelNumber)] else [])) &&
                (!(completes && !onPartCompleted) ==>
                   started && unchanged(pageLedState) &&
                   events == old(events) + (if completes then [PartCompleted(channelNumber, ToU8(chainTo))] else []))
      ensures old(started) && pulses % 6 != 0 ==>
                Position() == old(Position()) && currentPage == old(currentPage) &&
                started && events == old(events) && unchanged(pageLedState)
    {
      if !started {
        return;
      }
      hasPulse := true;
      if pulses % 6 == 0 {
        SixteenthNote();
      }
      quarterNoteEdge := pulses % 12 == 0;
    }

    /** `Run(now)`: nothing unless started; on a quarter-note edge the
        current page's LED blinks and the edge is consumed. */
    method Run(now: u32)
      requires Valid()
      modifies this, pageLedState
      ensures Valid()
      ensures old(started && quarterNoteEdge) ==>
                !quarterNoteEdge && pageLedState[..] == BlinkLeds(old(pageLedState[..]), currentPage, pageCount)
      ensures !old(started && quarterNoteEdge) ==> unchanged(pageLedState) && quarterNoteEdge == old(quarterNoteEdge)
      ensures unchanged(this`started, this`currentStep, this`currentPage, this`remainingRepeats, this`events)
      ensures Settings() == old(Settings()) && hasPulse == old(hasPulse)
    {
      if !started {
        return;
      }
      if quarterNoteEdge {
        quarterNoteEdge := false;
        ghost var before := pageLedState[..];
        for i := 0 to 4
          invariant forall k :: 0 <= k < i ==> pageLedState[k] == (if k != currentPage then k < pageCount else !before[k])
          invariant forall k :: i <= k < 4 ==> pageLedState[k] == before[k]
          modifies pageLedState
        {
          if i != currentPage {
            pageLedState[i] := i < pageCount;
          } else {
            pageLedState[i] := !pageLedState[i];
          }
        }
      }
    }

    /** `PageLedState(page)`; an index outside the four LEDs is undefined. */
    function PageLedState(page: int): (r: bool)
      requires Valid() && 0 <= page < PAGE_LEDS
      reads this, pageLedState
      ensures r == pageLedState[..][page]
    {
      pageLedState[page]
    }

    /** `ChainTo()`, which returns the `int8_t` chain target as `uint8_t`:
        a target of 0..15 reads as itself, "no chain" (-1) as 255. */
    function ChainTo(): (r: u8)
      reads this
      ensures chainTo >= 0 ==> r as int == chainTo as int
      ensures chainTo < 0 ==> r as int == chainTo as int + 256
    {
      ToU8(chainTo as int)
    }

    /** `SetPageCount(n)`: the last step becomes `n * 16` (8-bit) and the
        LEDs show the page count. */
    method SetPageCount(pageCount: u8)
      requires Valid()
      modifies this, pageLedState
      ensures Valid() && this.pageCount == pageCount && lastStep == LastStepOfPages(pageCount)
      ensures pageLedState[..] == PageLeds(pageCount)
      ensures unchanged(this`started, this`currentStep, this`currentPage, this`remainingRepeats, this`events)
      ensures unchanged(this`repeats, this`chainTo, this`pageCountRaw, this`repeatsRaw, this`chainToRaw)
      ensures unchanged(this`quarterNoteEdge, this`hasPulse, this`onPartCompleted, this`onPartStarted, this`onPartStopped)
    {
      this.pageCount := pageCount;
      lastStep := ToU8(pageCount * 16);
      ShowPages();
    }

    /** `SetPageCountRaw(raw)`. */
    method SetPageCountRaw(raw: u16)
      requires Valid()
      modifies this, pageLedState
      ensures Valid() && pageCountRaw == raw && pageCount == PagesOfRaw(raw)
      ensures lastStep == LastStepOfPages(pageCount) && pageLedState[..] == PageLeds(pageCount)
      ensures unchanged(this`started, this`currentStep, this`currentPage, this`remainingRepeats, this`events)
      ensures unchanged(this`repeats, this`chainTo, this`repeatsRaw, this`chainToRaw)
      ensures unchanged(this`quarterNoteEdge, this`hasPulse, this`onPartCompleted, this`onPartStarted, this`onPartStopped)
    {
      pageCountRaw := raw;
      SetPageCount(ToU8(ArduinoMap(raw, 0, 1000, 0, 4)));
    }

    /** `SetRepeats(repeats)`: the raw value follows through the inverse
        map. */
    method SetRepeats(repeats: u8)
      modifies this
      ensures this.repeats == repeats && repeatsRaw == RawOfRepeats(repeats)
      ensures unchanged(this`started, this`currentStep, this`remainingRepeats, this`events, this`lastStep)
      ensures unchanged(this`pageCount, this`chainTo, this`pageCountRaw, this`chainToRaw)
      ensures unchanged(this`quarterNoteEdge, this`hasPulse, this`onPartCompleted, this`onPartStarted, this`onPartStopped)
      ensures unchanged(this`currentPage)
    {
      this.repeats := repeats;
      repeatsRaw := ToU16(ArduinoMap(repeats, 0, 32, 0, 1023));
    }

    /** `SetRepeatsRaw(raw)`: the stored raw value is then overwritten by
        `SetRepeats`. */
    method SetRepeatsRaw(raw: u16)
      modifies this
      ensures repeats == RepeatsOfRaw(raw) && repeatsRaw == RawOfRepeats(RepeatsOfRaw(raw))
      ensures unchanged(this`started, this`currentStep, this`remainingRepeats, this`events, this`lastStep)
      ensures unchanged(this`pageCount, this`chainTo, this`pageCountRaw, this`chainToRaw)
      ensures unchanged(this`quarterNoteEdge, this`hasPulse, this`onPartCompleted, this`onPartStarted, this`onPartStopped)
      ensures unchanged(this`currentPage)
    {
      repeatsRaw := raw;
      SetRepeats(ToU8(ArduinoMap(raw, 0, 1023, 0, 32)));
    }

    /** `SetChainTo(chainTo)`. */
    method SetChainTo(chainTo: i8)
      modifies this
      ensures this.chainTo == chainTo && chainToRaw == RawOfChainTo(chainTo)
      ensures unchanged(this`started, this`currentStep, this`remainingRepeats, this`events, this`lastStep)
      ensures unchanged(this`pageCount, this`repeats, this`pageCountRaw, this`repeatsRaw)
      ensures unchanged(this`quarterNoteEdge, this`hasPulse, this`onPartCompleted, this`onPartStarted, this`onPartStopped)
      ensures unchanged(this`currentPage)
    {
      this.chainTo := chainTo;
      chainToRaw := ToU16(ArduinoMap(chainTo, -1, 15, 0, 1023));
    }

    /** `SetChainToRaw(raw)`: the stored raw value is then overwritten by
        `SetChainTo`. */
    method SetChainToRaw(raw: u16)
      modifies this
      ensures chainTo == ChainToOfRaw(raw) && chainToRaw == RawOfChainTo(ChainToOfRaw(raw))
      ensures unchanged(this`started, this`currentStep, this`remainingRepeats, this`events, this`lastStep)
      ensures unchanged(this`pageCount, this`repeats, this`pageCountRaw, this`repeatsRaw)
      ensures unchanged(this`quarterNoteEdge, this`hasPulse, this`onPartCompleted, this`onPartStarted, this`onPartStopped)
      ensures unchanged(this`currentPage)
    {
      chainToRaw := raw;
      SetChainTo(ToI8(ArduinoMap(raw, 0, 1023, -1, 15)));
    }

    /** `SetLastStep(value)`: the value only chooses the page count; the last
        step then follows from it. */
    method SetLastStep(value: u8)
      requires Valid()
      modifies this, pageLedState
      ensures Valid() && pageCount == PagesOfLastStep(value) && lastStep == LastStepOfPages(pageCount)
      ensures pageLedState[..] == PageLeds(pageCount)
      ensures unchanged(this`started, this`currentStep, this`currentPage, this`remainingRepeats, this`events)
      ensures unchanged(this`repeats, this`chainTo, this`pageCountRaw, this`repeatsRaw, this`chainToRaw)
      ensures unchanged(this`quarterNoteEdge, this`hasPulse, this`onPartCompleted, this`onPartStarted, this`onPartStopped)
    {
      lastStep := value;
      var pageCount := if lastStep == 0 then 0 else if lastStep < 16 then 1 else (lastStep + 1) / 16;
      SetPageCount(pageCount);
    }
  }
}
