/** `DebounceButton165`: one button read from a bit of a 74HC165 shift
    register, debounced against a millisecond clock, with latched press and
    release events. Times are `unsigned long` values and the elapsed time is
    their difference modulo 2^32. */
module DebounceButton {
  import opened CInt

  const DEFAULT_DEBOUNCE_MS: u32 := 40

  /** Bit `b` of `regVal`, counting from the least significant. */
  function Bit(regVal: u8, b: nat): bool
  {
    (regVal / Pow2(b)) % 2 == 1
  }

  /** The raw, active-high level: `regVal & (uint8_t)(1U << bitIndex)`,
      inverted when the button is active low. The 16-bit mask truncated to
      8 bits is bit `bitIndex` below 8 and empty from 8 to 15. */
  function RawLevel(regVal: u8, bitIndex: u8, activeLow: bool): bool
    requires bitIndex < 16
  {
    var bit := bitIndex < 8 && Bit(regVal, bitIndex as nat);
    if activeLow then !bit else bit
  }

  /** The mutable part of a button. */
  datatype ButtonState = ButtonState(lastRaw: bool, stableState: bool, pressedEvent: bool,
                                     releasedEvent: bool, lastDebounceTime: u32)

  /** `unsigned long` elapsed time from `since` to `now`. */
  function Elapsed(now: u32, since: u32): u32
  {
    ToU32(now - since)
  }

  /** `update(regVal, nowMs)` on the state `s`, given the raw level. */
  function Debounce(s: ButtonState, raw: bool, nowMs: u32, debounceMs: u32): ButtonState
  {
    var t := if raw != s.lastRaw then s.(lastDebounceTime := nowMs, lastRaw := raw) else s;
    if Elapsed(nowMs, t.lastDebounceTime) >= debounceMs && raw != t.stableState then
      if raw then t.(stableState := raw, pressedEvent := true)
      else t.(stableState := raw, releasedEvent := true)
    else t
  }

  /** The stable state changes exactly when the raw level differs from it and
      has not changed for at least `debounceMs`; it then takes the raw
      level. A raw change restarts the debounce timer, and the raw level is
      always remembered. */
  lemma UpdateStable(s: ButtonState, raw: bool, nowMs: u32, debounceMs: u32)
    ensures var t := Debounce(s, raw, nowMs, debounceMs);
            var since := if raw != s.lastRaw then nowMs else s.lastDebounceTime;
            t.lastRaw == raw && t.lastDebounceTime == since &&
            (t.stableState != s.stableState <==> raw != s.stableState && Elapsed(nowMs, since) >= debounceMs) &&
            (t.stableState != s.stableState ==> t.stableState == raw)
  {
  }

  /** A change to pressed latches the press event and a change to released
      latches the release event; an update never clears either, and sets
      neither without a change. */
  lemma UpdateLatches(s: ButtonState, raw: bool, nowMs: u32, debounceMs: u32)
    ensures var t := Debounce(s, raw, nowMs, debounceMs);
            t.pressedEvent == (s.pressedEvent || (!s.stableState && t.stableState)) &&
            t.releasedEvent == (s.releasedEvent || (s.stableState && !t.stableState))
  {
  }

  /** A change of raw level is never accepted on the update that sees it when
      the debounce time is positive. */
  lemma NoInstantChange(s: ButtonState, raw: bool, nowMs: u32, debounceMs: u32)
    requires raw != s.lastRaw && debounceMs > 0
    ensures Debounce(s, raw, nowMs, debounceMs).stableState == s.stableState
  {
  }

  /** A raw level held since `since` is accepted by the first update at least
      `debounceMs` later. */
  lemma SteadyLevelAccepted(s: ButtonState, nowMs: u32, debounceMs: u32)
    requires Elapsed(nowMs, s.lastDebounceTime) >= debounceMs
    ensures Debounce(s, s.lastRaw, nowMs, debounceMs).stableState == s.lastRaw
  {
  }

  /** `wasPressed()`: reports the latched press event and clears it. */
  function TakePressed(s: ButtonState): (bool, ButtonState)
  {
    (s.pressedEvent, s.(pressedEvent := false))
  }

  /** `wasReleased()`: reports the latched release event and clears it. */
  function TakeReleased(s: ButtonState): (bool, ButtonState)
  {
    (s.releasedEvent, s.(releasedEvent := false))
  }

  /** A latched event is reported once: a second query without an update in
      between answers false, and the stable state is not touched. */
  lemma EventsReportedOnce(s: ButtonState)
    ensures TakePressed(TakePressed(s).1).0 == false && TakePressed(s).1.stableState == s.stableState
    ensures TakeReleased(TakeReleased(s).1).0 == false && TakeReleased(s).1.stableState == s.stableState
    ensures TakePressed(s).0 == s.pressedEvent && TakeReleased(s).0 == s.releasedEvent
  {
  }

  /** One update that accepts a press, followed by `wasPressed()`, reports
      exactly one press. */
  lemma PressReportedOnce(s: ButtonState, nowMs: u32, debounceMs: u32)
    requires !s.stableState && s.lastRaw && Elapsed(nowMs, s.lastDebounceTime) >= debounceMs
    ensures var t := Debounce(s, true, nowMs, debounceMs);
            TakePressed(t).0 && !TakePressed(TakePressed(t).1).0 && t.stableState
  {
  }

  class DebounceButton165 {
    const bitIndex: u8
    const activeLow: bool
    const debounceMs: u32

    var lastRaw: bool
    var stableState: bool
    var pressedEvent: bool
    var releasedEvent: bool
    var lastDebounceTime: u32

    function State(): ButtonState
      reads this
    {
      ButtonState(lastRaw, stableState, pressedEvent, releasedEvent, lastDebounceTime)
    }

    /** `DebounceButton165(bitIndex, activeLow = false, debounceMs = 40)`: released, no
        events, timer at zero. */
    constructor (bitIndex: u8, activeLow: bool := false, debounceMs: u32 := 40)
      ensures this.bitIndex == bitIndex && this.activeLow == activeLow && this.debounceMs == debounceMs
      ensures State() == ButtonState(false, false, false, false, 0)
    {
      this.bitIndex := bitIndex;
      this.activeLow := activeLow;
      this.debounceMs := debounceMs;
      lastRaw := false;
      stableState := false;
      pressedEvent := false;
      releasedEvent := false;
      lastDebounceTime := 0;
    }

    /** `update(regVal, nowMs)`. A shift of `1U` by 16 or more is undefined
        on the 16-bit target, so `bitIndex` is below 16. */
    method Update(regVal: u8, nowMs: u32)
      requires bitIndex < 16
      modifies this
      ensures State() == Debounce(old(State()), RawLevel(regVal, bitIndex, activeLow), nowMs, debounceMs)
    {
      var raw := bitIndex < 8 && (regVal / Pow2(bitIndex as nat)) % 2 == 1;
      if activeLow {
        raw := !raw;
      }
      if raw != lastRaw {
        lastDebounceTime := nowMs;
        lastRaw := raw;
      }
      if ToU32(nowMs - lastDebounceTime) >= debounceMs {
        if raw != stableState {
          stableState := raw;
          if stableState {
            pressedEvent := true;
          } else {
            releasedEvent := true;
          }
        }
      }
    }

    /** `wasPressed()`. */
    method WasPressed() returns (pressed: bool)
      modifies this
      ensures (pressed, State()) == TakePressed(old(State()))
    {
      if pressedEvent {
        pressedEvent := false;
        return true;
      }
      return false;
    }

    /** `wasReleased()`. */
    method WasReleased() returns (released: bool)
      modifies this
      ensures (released, State()) == TakeReleased(old(State()))
    {
      if releasedEvent {
        releasedEvent := false;
        return true;
      }
      return false;
    }

    /** `isDown()`: the stable state. */
    function IsDown(): (r: bool)
      reads this
      ensures r == State().stableState
    {
      stableState
    }
  }
}
