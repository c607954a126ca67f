/** `AnalogMuxScanner`: three 8-way analog multiplexers feeding three analog
    inputs read the pots of up to eight channels, three pots each. Each scan
    selects one mux address, reads the three inputs (inverted), assigns each
    reading to a (channel, pot) slot and reports a slot when its first
    reading arrives or when it moves by at least the hysteresis. Analog
    samples are inputs; the change callback becomes a trace of reports. */
module MuxScanner {
  import opened CInt

  const MUX_ADDRESSES: nat := 8
  const INPUTS: nat := 3
  const POTS_PER_CHANNEL: nat := 3
  /** The largest 10-bit ADC reading. */
  const ADC_MAX: nat := 1023

  /** A call of the change handler. */
  datatype Report = Report(channel: int, pot: int, value: u16)

  // ================================================================ the slot mapping

  /** The slot input `i` reads at mux address `m`: with `off = 2i`,
      channel `(m + off) / 3 + off` and pot `(m + off) % 3`. */
  function SlotChannel(m: nat, i: nat): nat
  {
    (m + 2 * i) / 3 + 2 * i
  }

  function SlotPot(m: nat, i: nat): nat
  {
    (m + 2 * i) % 3
  }

  /** The mux address at which slot (`ch`, `pot`) is read. */
  function SlotAddress(ch: nat, pot: nat): nat
  {
    (ch * 3 + pot) % 8
  }

  /** The input through which slot (`ch`, `pot`) is read. */
  function SlotInput(ch: nat, pot: nat): nat
  {
    (ch * 3 + pot) / 8
  }

  /** Every (address, input) pair reads a slot of the eight channels, and
      `SlotAddress`/`SlotInput` recover the pair from the slot: no two
      pairs read the same slot. */
  lemma SlotMappingInjective(m: nat, i: nat)
    requires m < MUX_ADDRESSES && i < INPUTS
    ensures SlotChannel(m, i) < 8 && SlotPot(m, i) < POTS_PER_CHANNEL
    ensures SlotAddress(SlotChannel(m, i), SlotPot(m, i)) == m && SlotInput(SlotChannel(m, i), SlotPot(m, i)) == i
  {
    SlotIndex(m, i);
    DivModOf(m + 8 * i, 8, i, m);
  }

  /** Every slot of the eight channels is read by the pair
      `SlotAddress`/`SlotInput` names: together with
      `SlotMappingInjective`, each pot is read exactly once per cycle of
      the address. */
  lemma SlotMappingSurjective(ch: nat, pot: nat)
    requires ch < 8 && pot < POTS_PER_CHANNEL
    ensures SlotAddress(ch, pot) < MUX_ADDRESSES && SlotInput(ch, pot) < INPUTS
    ensures SlotChannel(SlotAddress(ch, pot), SlotInput(ch, pot)) == ch && SlotPot(SlotAddress(ch, pot), SlotInput(ch, pot)) == pot
  {
    var j := ch * 3 + pot;
    var m, i := j % 8, j / 8;
    assert i < INPUTS;
    SlotIndex(m, i);
    DivModOf(j, 3, ch, pot);
    assert SlotChannel(m, i) * 3 + SlotPot(m, i) == j;
    DivModOf(j, 3, SlotChannel(m, i), SlotPot(m, i));
  }

  /** The slot's index `ch * 3 + pot` is `m + 8i`: input `i` covers indices
      `8i` to `8i + 7` as the address runs through 0..7. */
  lemma SlotIndex(m: nat, i: nat)
    requires m < MUX_ADDRESSES && i < INPUTS
    ensures SlotChannel(m, i) * 3 + SlotPot(m, i) == m + 8 * i
  {
    var j := m + 2 * i;
    assert j == 3 * (j / 3) + j % 3;
  }

  /** Slots of channels the scanner does not have are skipped, so every
      written index lies below `channels * 3`. */
  lemma SlotIndexInRange(m: nat, i: nat, channels: nat)
    requires SlotChannel(m, i) < channels
    ensures SlotChannel(m, i) * 3 + SlotPot(m, i) < channels * 3
  {
  }

  // ================================================================ reading an input

  function Sum(samples: seq<u16>): nat
  {
    if samples == [] then 0 else Sum(samples[..|samples| - 1]) + samples[|samples| - 1]
  }

  /** `readInvertedAnalog`: 1023 minus the integer mean of the samples taken
      (one when at most one is asked for), as `uint16_t`. */
  function InvertedReading(samples: seq<u16>): u16
    requires |samples| >= 1
  {
    ToU16(ADC_MAX - Sum(samples) / |samples|)
  }

  /** How many samples one reading takes. */
  function SampleCount(samplesPerRead: u8): (n: nat)
    ensures n >= 1
  {
    if samplesPerRead <= 1 then 1 else samplesPerRead
  }

  /** A sum of samples each at most `bound` is at most `bound` per sample. */
  lemma {:induction false} SumBound(samples: seq<u16>, bound: nat)
    requires forall k :: 0 <= k < |samples| ==> samples[k] <= bound
    ensures Sum(samples) <= bound * |samples|
    decreases |samples|
  {
    if samples != [] {
      var n := |samples|;
      SumBound(samples[..n - 1], bound);
      assert bound * (n - 1) + bound == bound * n;
    }
  }

  /** The mean of samples each at most `bound` is at most `bound`. */
  lemma MeanBound(samples: seq<u16>, bound: nat)
    requires |samples| >= 1 && forall k :: 0 <= k < |samples| ==> samples[k] <= bound
    ensures Sum(samples) / |samples| <= bound
  {
    SumBound(samples, bound);
    DivAtMost(Sum(samples), |samples|, bound);
  }

  /** The mean of `uint16_t` samples fits in `uint16_t`: storing it keeps it. */
  lemma MeanFits(samples: seq<u16>, mean: int)
    requires |samples| >= 1 && mean == Sum(samples) / |samples|
    ensures ToU16(mean) as int == mean
  {
    MeanBound(samples, 0xFFFF);
    assert 0 <= mean < U16_LIMIT;
  }

  /** For 10-bit samples the reading is the mirror image of the mean within
      0..1023, with no wrap-around: a pot at one end reads at the other. */
  lemma InvertedReadingRange(samples: seq<u16>)
    requires |samples| >= 1 && forall k :: 0 <= k < |samples| ==> samples[k] <= ADC_MAX
    ensures InvertedReading(samples) == ADC_MAX - Sum(samples) / |samples|
    ensures InvertedReading(samples) <= ADC_MAX
  {
    MeanBound(samples, ADC_MAX);
  }

  /** Repeating one sample `v` gives the reading `1023 - v`: averaging
      only smooths noise. */
  lemma {:induction false} ConstantSamples(samples: seq<u16>, v: u16)
    requires |samples| >= 1 && v <= ADC_MAX
    requires forall k :: 0 <= k < |samples| ==> samples[k] == v
    ensures InvertedReading(samples) == ADC_MAX - v
  {
    SumConstant(samples, v);
    DivModOf(v * |samples|, |samples|, v, 0);
  }

  lemma {:induction false} SumConstant(samples: seq<u16>, v: u16)
    requires forall k :: 0 <= k < |samples| ==> samples[k] == v
    ensures Sum(samples) == v * |samples|
    decreases |samples|
  {
    if samples != [] {
      var n := |samples|;
      SumConstant(samples[..n - 1], v);
      assert v * (n - 1) + v == v * n;
    }
  }

  // ================================================================ hysteresis

  /** The stored readings of all slots and whether each has one. */
  datatype Slots = Slots(stable: seq<u16>, hasStable: seq<bool>)

  /** One reading `raw` for slot `idx`: the first one is stored and
      reported; a later one replaces the stored value, and is reported, only
      when it differs from it by at least the hysteresis. */
  function Settle(s: Slots, idx: nat, raw: u16, hysteresis: u16): (r: (Slots, bool))
    requires idx < |s.stable| == |s.hasStable|
    ensures |r.0.stable| == |s.stable| && |r.0.hasStable| == |s.hasStable|
  {
    if !s.hasStable[idx] then (Slots(s.stable[idx := raw], s.hasStable[idx := true]), true)
    else
      var diff := if raw >= s.stable[idx] then raw - s.stable[idx] else s.stable[idx] - raw;
      if diff >= hysteresis then (Slots(s.stable[idx := raw], s.hasStable), true)
      else (s, false)
  }

  /** A reading is reported exactly when it is the slot's first or moves by
      at least the hysteresis; the slot then holds the reading, and
      otherwise keeps its value. Other slots do not change, and the slot has
      a reading afterwards. */
  lemma SettleLaw(s: Slots, idx: nat, raw: u16, hysteresis: u16)
    requires idx < |s.stable| == |s.hasStable|
    ensures var r := Settle(s, idx, raw, hysteresis);
            (r.1 <==> !s.hasStable[idx] || raw - s.stable[idx] >= hysteresis || s.stable[idx] - raw >= hysteresis) &&
            r.0.stable[idx] == (if r.1 then raw else s.stable[idx]) && r.0.hasStable[idx] &&
            (forall j :: 0 <= j < |s.stable| && j != idx ==> r.0.stable[j] == s.stable[j] && r.0.hasStable[j] == s.hasStable[j])
  {
  }

  /** Readings within the hysteresis of the stored value never move it:
      a stored value only changes by a report. */
  lemma SmallMovesIgnored(s: Slots, idx: nat, raw: u16, hysteresis: u16)
    requires idx < |s.stable| == |s.hasStable| && s.hasStable[idx]
    requires raw - s.stable[idx] < hysteresis && s.stable[idx] - raw < hysteresis
    ensures Settle(s, idx, raw, hysteresis) == (s, false)
  {
  }

  /** Distributing the three readings of one scan at mux address `mux` over
      the slots, inputs `0..n`, with the reports made. */
  function Distribute(s: Slots, mux: nat, values: seq<u16>, n: nat, channels: nat, hysteresis: u16): (r: (Slots, seq<Report>))
    requires n <= |values| && |s.stable| == |s.hasStable| == channels * 3
    ensures |r.0.stable| == |r.0.hasStable| == channels * 3
  {
    if n == 0 then (s, [])
    else
      var before := Distribute(s, mux, values, n - 1, channels, hysteresis);
      var ch := SlotChannel(mux, n - 1);
      var pot := SlotPot(mux, n - 1);
      if ch >= channels then before
      else
        SlotIndexInRange(mux, n - 1, channels);
        var step := Settle(before.0, ch * 3 + pot, values[n - 1], hysteresis);
        (step.0, before.1 + if step.1 then [Report(ch, pot, values[n - 1])] else [])
  }

  /** `rep` reports a slot that one of the inputs `0..n` reads at address
      `mux`, with that input's reading, and `stable` holds the reading in
      that slot. */
  ghost predicate ReportFrom(rep: Report, mux: nat, values: seq<u16>, n: nat, channels: nat, stable: seq<u16>)
  {
    0 <= rep.channel < channels && 0 <= rep.pot < POTS_PER_CHANNEL &&
    rep.channel * 3 + rep.pot < |stable| &&
    var i := SlotInput(rep.channel, rep.pot);
    i < n && i < |values| && SlotAddress(rep.channel, rep.pot) == mux &&
    rep.value == values[i] && stable[rep.channel * 3 + rep.pot] == values[i]
  }

  /** Every report of `reports` satisfies `ReportFrom`. */
  ghost predicate AllReportsFrom(reports: seq<Report>, mux: nat, values: seq<u16>, n: nat, channels: nat, stable: seq<u16>)
  {
    forall k {:trigger ReportFrom(reports[k], mux, values, n, channels, stable)} ::
      0 <= k < |reports| ==> ReportFrom(reports[k], mux, values, n, channels, stable)
  }

  /** A report made for an earlier input survives the handling of input
      `n`, which touches only its own slot. */
  lemma ReportKept(rep: Report, mux: nat, values: seq<u16>, n: nat, channels: nat, stable: seq<u16>, stable': seq<u16>)
    requires mux < MUX_ADDRESSES && n < INPUTS
    requires ReportFrom(rep, mux, values, n, channels, stable)
    requires |stable'| == |stable|
    requires forall j :: 0 <= j < |stable| && j != SlotChannel(mux, n) * 3 + SlotPot(mux, n) ==> stable'[j] == stable[j]
    ensures ReportFrom(rep, mux, values, n + 1, channels, stable')
  {
    SlotIndex(mux, n);
  }

  /** Every report of a scan names a slot the scanner has, carries the
      reading of the input that reads that slot, and the slot holds that
      value afterwards. */
  lemma {:induction false} DistributeReports(s: Slots, mux: nat, values: seq<u16>, n: nat, channels: nat, hysteresis: u16)
    requires mux < MUX_ADDRESSES && n <= |values| && n <= INPUTS
    requires |s.stable| == |s.hasStable| == channels * 3
    ensures var r := Distribute(s, mux, values, n, channels, hysteresis);
            AllReportsFrom(r.1, mux, values, n, channels, r.0.stable)
    decreases n
  {
    if n > 0 {
      DistributeReports(s, mux, values, n - 1, channels, hysteresis);
      if SlotChannel(mux, n - 1) < channels {
        DistributeSettle(s, mux, values, n, channels, hysteresis);
      } else {
        DistributeSkip(s, mux, values, n, channels, hysteresis);
      }
    }
  }

  /** Input `n - 1` reads a slot the scanner has: it settles that slot. */
  lemma DistributeSettle(s: Slots, mux: nat, values: seq<u16>, n: nat, channels: nat, hysteresis: u16)
    requires mux < MUX_ADDRESSES && 0 < n <= |values| && n <= INPUTS && SlotChannel(mux, n - 1) < channels
    requires |s.stable| == |s.hasStable| == channels * 3
    requires var b := Distribute(s, mux, values, n - 1, channels, hysteresis);
             AllReportsFrom(b.1, mux, values, n - 1, channels, b.0.stable)
    ensures var r := Distribute(s, mux, values, n, channels, hysteresis);
            AllReportsFrom(r.1, mux, values, n, channels, r.0.stable)
  {
    var before := Distribute(s, mux, values, n - 1, channels, hysteresis);
    var ch := SlotChannel(mux, n - 1);
    var pot := SlotPot(mux, n - 1);
    SlotIndexInRange(mux, n - 1, channels);
    SettleReports(before.0, before.1, mux, values, n - 1, channels, hysteresis);
    var st := Settle(before.0, ch * 3 + pot, values[n - 1], hysteresis);
    assert Distribute(s, mux, values, n, channels, hysteresis) ==
           (st.0, before.1 + if st.1 then [Report(ch, pot, values[n - 1])] else []);
  }

  /** Input `n - 1` reads a channel the scanner does not have: nothing
      changes, and the reports so far stay valid. */
  lemma DistributeSkip(s: Slots, mux: nat, values: seq<u16>, n: nat, channels: nat, hysteresis: u16)
    requires mux < MUX_ADDRESSES && 0 < n <= |values| && n <= INPUTS && SlotChannel(mux, n - 1) >= channels
    requires |s.stable| == |s.hasStable| == channels * 3
    requires var b := Distribute(s, mux, values, n - 1, channels, hysteresis);
             AllReportsFrom(b.1, mux, values, n - 1, channels, b.0.stable)
    ensures var r := Distribute(s, mux, values, n, channels, hysteresis);
            AllReportsFrom(r.1, mux, values, n, channels, r.0.stable)
  {
    var before := Distribute(s, mux, values, n - 1, channels, hysteresis);
    var r := Distribute(s, mux, values, n, channels, hysteresis);
    assert r == before;
    forall k | 0 <= k < |r.1|
      ensures ReportFrom(r.1[k], mux, values, n, channels, r.0.stable)
    {
      ReportKept(before.1[k], mux, values, n - 1, channels, before.0.stable, before.0.stable);
    }
  }

  /** Handling input `n` keeps the earlier reports valid and adds a valid
      one when it reports. */
  lemma SettleReports(before: Slots, reports: seq<Report>, mux: nat, values: seq<u16>, n: nat, channels: nat, hysteresis: u16)
    requires mux < MUX_ADDRESSES && n < INPUTS && n < |values| && SlotChannel(mux, n) < channels
    requires |before.stable| == |before.hasStable| == channels * 3
    requires AllReportsFrom(reports, mux, values, n, channels, before.stable)
    ensures SlotChannel(mux, n) * 3 + SlotPot(mux, n) < channels * 3
    ensures var ch, pot := SlotChannel(mux, n), SlotPot(mux, n);
            var st := Settle(before, ch * 3 + pot, values[n], hysteresis);
            var reports' := reports + if st.1 then [Report(ch, pot, values[n])] else [];
            AllReportsFrom(reports', mux, values, n + 1, channels, st.0.stable)
  {
    var ch, pot := SlotChannel(mux, n), SlotPot(mux, n);
    SlotIndexInRange(mux, n, channels);
    var st := Settle(before, ch * 3 + pot, values[n], hysteresis);
    var reports' := reports + if st.1 then [Report(ch, pot, values[n])] else [];
    SettleLaw(before, ch * 3 + pot, values[n], hysteresis);
    forall k | 0 <= k < |reports'|
      ensures ReportFrom(reports'[k], mux, values, n + 1, channels, st.0.stable)
    {
      if k < |reports| {
        assert reports'[k] == reports[k];
        ReportKept(reports[k], mux, values, n, channels, before.stable, st.0.stable);
      } else {
        NewReport(mux, values, n, channels, st.0.stable);
      }
    }
  }

  /** The report for input `n` itself, once its slot holds its reading. */
  lemma NewReport(mux: nat, values: seq<u16>, n: nat, channels: nat, stable: seq<u16>)
    requires mux < MUX_ADDRESSES && n < INPUTS && n < |values| && SlotChannel(mux, n) < channels
    requires |stable| == channels * 3
    requires stable[SlotChannel(mux, n) * 3 + SlotPot(mux, n)] == values[n]
    ensures ReportFrom(Report(SlotChannel(mux, n), SlotPot(mux, n), values[n]), mux, values, n + 1, channels, stable)
  {
    SlotMappingInjective(mux, n);
    SlotIndexInRange(mux, n, channels);
  }

  /** Input `n` reads a channel the scanner does not have: nothing changes. */
  lemma DistributeSkipped(s: Slots, mux: nat, values: seq<u16>, n: nat, channels: nat, hysteresis: u16)
    requires n < |values| && |s.stable| == |s.hasStable| == channels * 3 && SlotChannel(mux, n) >= channels
    ensures Distribute(s, mux, values, n + 1, channels, hysteresis) == Distribute(s, mux, values, n, channels, hysteresis)
  {
  }

  /** Input `n` reads a slot the scanner has: that slot is settled, and a
      report, if any, follows the earlier ones. */
  lemma DistributeSettled(s: Slots, mux: nat, values: seq<u16>, n: nat, channels: nat, hysteresis: u16)
    requires mux < MUX_ADDRESSES && n < INPUTS && n < |values|
    requires |s.stable| == |s.hasStable| == channels * 3 && SlotChannel(mux, n) < channels
    ensures var ch, pot := SlotChannel(mux, n), SlotPot(mux, n);
            ch * 3 + pot < channels * 3 &&
            var before := Distribute(s, mux, values, n, channels, hysteresis);
            var st := Settle(before.0, ch * 3 + pot, values[n], hysteresis);
            Distribute(s, mux, values, n + 1, channels, hysteresis) ==
              (st.0, before.1 + if st.1 then [Report(ch, pot, values[n])] else [])
  {
    SlotIndexInRange(mux, n, channels);
  }

  /** The reports a handler has seen after one more batch. */
  lemma ReportsAfter(reports0: seq<Report>, before: seq<Report>, reported: bool, x: Report, installed: bool)
    ensures (reports0 + if installed then before else []) + (if installed && reported then [x] else []) ==
            reports0 + if installed then before + (if reported then [x] else []) else []
  {
  }

  // ================================================================ the scanner

  class AnalogMuxScanner {
    const channels: u8
    var mux: u8
    var lastScanMs: u32
    var scanIntervalMs: u16
    var hysteresis: u16
    var samplesPerRead: u8
    /** `_stable` and `_hasStable`, one entry per (channel, pot) slot. */
    const stable: array<u16>
    const hasStable: array<bool>
    /** Whether a change handler is installed, and its calls so far. */
    var onChange: bool
    var reports: seq<Report>

    predicate Valid()
      reads this
    {
      stable.Length == hasStable.Length == channels as nat * 3 && mux < MUX_ADDRESSES
    }

    function Stored(): Slots
      reads this, stable, hasStable
    {
      Slots(stable[..], hasStable[..])
    }

    /** `AnalogMuxScanner(s0, s1, s2, a0, a1, a2, channels)`, without the
        pins: every slot empty, address 0, a 5 ms interval, hysteresis 3,
        one sample per reading. */
    constructor (channels: u8)
      ensures Valid() && this.channels == channels
      ensures mux == 0 && lastScanMs == 0 && scanIntervalMs == 5 && hysteresis == 3 && samplesPerRead == 1
      ensures forall k :: 0 <= k < stable.Length ==> stable[k] == 0 && !hasStable[k]
      ensures !onChange && reports == []
    {
      this.channels := channels;
      mux := 0;
      lastScanMs := 0;
      scanIntervalMs := 5;
      hysteresis := 3;
      samplesPerRead := 1;
      onChange := false;
      reports := [];
      var n := channels as nat * 3;
      stable := new u16[n](_ => 0);
      hasStable := new bool[n](_ => false);
    }

    method SetScanInterval(ms: u16)
      modifies this
      ensures scanIntervalMs == ms
      ensures unchanged(this`mux, this`lastScanMs, this`hysteresis, this`samplesPerRead, this`reports, this`onChange)
    {
      scanIntervalMs := ms;
    }

    method SetHysteresis(counts: u16)
      modifies this
      ensures hysteresis == counts
      ensures unchanged(this`mux, this`lastScanMs, this`scanIntervalMs, this`samplesPerRead, this`reports, this`onChange)
    {
      hysteresis := counts;
    }

    /** `setSamplesPerRead(n)`: 0 is taken as 1. */
    method SetSamplesPerRead(n: u8)
      modifies this
      ensures samplesPerRead == (if n == 0 then 1 else n) && samplesPerRead >= 1
      ensures unchanged(this`mux, this`lastScanMs, this`scanIntervalMs, this`hysteresis, this`reports, this`onChange)
    {
      samplesPerRead := if n == 0 then 1 else n;
    }

    /** `onChange(handler)`: install or remove the handler. */
    method OnChange(installed: bool)
      modifies this
      ensures onChange == installed
      ensures unchanged(this`mux, this`lastScanMs, this`scanIntervalMs, this`hysteresis, this`samplesPerRead, this`reports)
    {
      onChange := installed;
    }

    /** `readInvertedAnalog(pin)` given the samples `analogRead` returns. */
    method ReadInvertedAnalog(samples: seq<u16>) returns (value: u16)
      requires |samples| == SampleCount(samplesPerRead)
      ensures value == InvertedReading(samples)
    {
      if samplesPerRead <= 1 {
        assert Sum(samples) == Sum([]) + samples[0];
        return ToU16(1023 - samples[0] as int);
      }
      assert |samples| == samplesPerRead as nat;
      var sum := SumSamples(samples);
      var mean := sum / samplesPerRead as nat;
      MeanFits(samples, mean);
      var avg := ToU16(mean);
      value := ToU16(1023 - avg as int);
    }

    /** The summing loop of `readInvertedAnalog`. Its `uint32_t` total
        cannot wrap: at most 255 samples of at most 65535 each. */
    static method SumSamples(samples: seq<u16>) returns (sum: nat)
      ensures sum == Sum(samples)
    {
      sum := 0;
      for i := 0 to |samples|
        invariant sum == Sum(samples[..i])
      {
        assert samples[..i + 1][..i] == samples[..i];
        sum := sum + samples[i];
      }
      assert samples[..|samples|] == samples;
    }

    /** `scan(now)`, given the samples of the three inputs. Nothing happens
        before the scan interval has passed since the last scan (an
        `unsigned long` difference); otherwise the readings are distributed
        over the slots of the current address, reported if a handler is
        installed, and the address moves to the next of 0..7. */
    method Scan(now: u32, samples: seq<seq<u16>>)
      requires Valid() && |samples| == INPUTS
      requires |samples[0]| == |samples[1]| == |samples[2]| == SampleCount(samplesPerRead)
      modifies this, stable, hasStable
      ensures Valid()
      ensures ToU32(now - old(lastScanMs)) < old(scanIntervalMs) ==>
                unchanged(this) && unchanged(stable) && unchanged(hasStable)
      ensures ToU32(now - old(lastScanMs)) >= old(scanIntervalMs) ==>
                var values := [InvertedReading(samples[0]), InvertedReading(samples[1]), InvertedReading(samples[2])];
                var r := Distribute(old(Stored()), old(mux), values, INPUTS, channels, hysteresis);
                lastScanMs == now && mux == (old(mux) + 1) % 8 && Stored() == r.0 &&
                reports == old(reports) + (if onChange then r.1 else [])
      ensures unchanged(this`scanIntervalMs, this`hysteresis, this`samplesPerRead, this`onChange)
    {
      if ToU32(now - lastScanMs) < scanIntervalMs {
        return;
      }
      lastScanMs := now;
      var v0 := ReadInvertedAnalog(samples[0]);
      var v1 := ReadInvertedAnalog(samples[1]);
      var v2 := ReadInvertedAnalog(samples[2]);
      var values := [v0, v1, v2];
      ghost var start := Stored();
      ghost var reports0 := reports;
      for i := 0 to 3
        invariant Valid() && mux == old(mux) && hysteresis == old(hysteresis)
        invariant var r := Distribute(start, mux, values, i, channels, hysteresis);
                  Stored() == r.0 && reports == reports0 + (if onChange then r.1 else [])
        modifies this`reports, stable, hasStable
      {
        ScanInput(i, values, start, reports0);
      }
      mux := (mux + 1) % 8;
    }

    /** One pass of the distributing loop of `scan`: input `i` at the
        current address, skipped when its channel is beyond `channels`. */
    method ScanInput(i: nat, values: seq<u16>, ghost start: Slots, ghost reports0: seq<Report>)
      requires Valid() && i < INPUTS == |values|
      requires |start.stable| == |start.hasStable| == channels as nat * 3
      requires var r := Distribute(start, mux, values, i, channels, hysteresis);
               Stored() == r.0 && reports == reports0 + (if onChange then r.1 else [])
      modifies this`reports, stable, hasStable
      ensures var r := Distribute(start, mux, values, i + 1, channels, hysteresis);
              Stored() == r.0 && reports == reports0 + (if onChange then r.1 else [])
    {
      var off := 2 * i;
      var ch := (mux as nat + off) / 3 + off;
      var pot := (mux as nat + off) % 3;
      assert ch == SlotChannel(mux as nat, i) && pot == SlotPot(mux as nat, i);
      if ch >= channels as nat {
        DistributeSkipped(start, mux as nat, values, i, channels as nat, hysteresis);
        return;
      }
      ScanSlot(i, values, start, reports0, ch, pot);
    }

    /** `scanInput` for an input whose slot belongs to an installed channel. */
    method ScanSlot(i: nat, values: seq<u16>, ghost start: Slots, ghost reports0: seq<Report>, ch: nat, pot: nat)
      requires Valid() && i < INPUTS == |values|
      requires |start.stable| == |start.hasStable| == channels as nat * 3
      requires ch == SlotChannel(mux as nat, i) < channels as nat && pot == SlotPot(mux as nat, i)
      requires var r := Distribute(start, mux, values, i, channels, hysteresis);
               Stored() == r.0 && reports == reports0 + (if onChange then r.1 else [])
      modifies this`reports, stable, hasStable
      ensures var r := Distribute(start, mux, values, i + 1, channels, hysteresis);
              Stored() == r.0 && reports == reports0 + (if onChange then r.1 else [])
    {
      ghost var before := Distribute(start, mux, values, i, channels, hysteresis);
      DistributeSettled(start, mux as nat, values, i, channels as nat, hysteresis);
      ghost var st := Settle(before.0, ch * 3 + pot, values[i], hysteresis);
      SettleSlot(ch * 3 + pot, ch, pot, values[i]);
      ReportsAfter(reports0, before.1, st.1, Report(ch, pot, values[i]), onChange);
    }

    /** The first-reading and hysteresis test of `scan` for one slot. */
    method SettleSlot(idx: nat, ch: nat, pot: nat, raw: u16)
      requires Valid() && idx < stable.Length
      modifies this`reports, stable, hasStable
      ensures var st := Settle(old(Stored()), idx, raw, hysteresis);
              Stored() == st.0 && reports == old(reports) + if onChange && st.1 then [Report(ch, pot, raw)] else []
    {
      ghost var s := Stored();
      if !hasStable[idx] {
        stable[idx] := raw;
        hasStable[idx] := true;
        if onChange {
          reports := reports + [Report(ch, pot, stable[idx])];
        }
        assert Stored() == Slots(s.stable[idx := raw], s.hasStable[idx := true]);
      } else {
        var diff: int := raw as int - stable[idx] as int;
        if diff < 0 {
          diff := -diff;
        }
        if diff >= hysteresis as int {
          stable[idx] := raw;
          if onChange {
            reports := reports + [Report(ch, pot, stable[idx])];
          }
          assert Stored() == Slots(s.stable[idx := raw], s.hasStable);
        }
      }
    }
  }
}
