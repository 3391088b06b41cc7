/**
 * The SID information screen: the presence test and model detection run on
 * each possible SID position, the choice of the second SID and of the comment,
 * and the filter-sweep demonstration.
 *
 * A SID is a bank of 29 byte registers at `base`. The probes POKE registers and
 * PEEK the volume register ($18) and the oscillator 3 output ($1B); what those
 * PEEKs answer is hardware behaviour and is supplied as a `SidResponse`.
 */
module SidInfo {
  import opened C128

  const Sid1Base := 0xD400
  const Sid2Mssiah := 0xDE00
  const Sid2Cynthcart := 0xDF00

  /** VIC-II control register 1: $0B blanks the screen, $1B is the normal display. */
  const VicControl := 0xD011

  /** Register offsets inside a SID. */
  const Volume := 0x18
  const Osc3Output := 0x1B
  const Voice3Control := 0x12
  const FilterCutoffLo := 0x15
  const FilterCutoffHi := 0x16
  const FilterControl := 0x17
  const Voice1Control := 0x04

  /** The number of registers the clearing loops zero: offsets 0 to 24. */
  const RegisterCount := 25

  /**
   * What one SID position answers to a probe: the volume register's value
   * before the test, its value when read back after $0F was written, and the
   * 256 values oscillator 3's output register gives when sampled.
   */
  datatype SidResponse = SidResponse(original: byte, readback: byte, samples: seq<byte>)

  /** The presence test passes when the four volume bits read back as written: `(readback & 0x0F) == 0x0F`. */
  predicate VolumeReadsBack(readback: byte)
  {
    readback % 16 == 0x0F
  }

  /** The predicate is the source's masked comparison. */
  lemma VolumeReadsBackIsMask(readback: byte)
    ensures VolumeReadsBack(readback) <==> BitAnd(readback, 0x0F) == 0x0F
  {
    AndLowMask(readback, 4);
    assert Pow2(4) == 16;
  }

  // ---------------------------------------------------------------------------
  // Register clearing

  /** Stores of 0 to offsets 0 .. n-1, in increasing order. */
  function ClearRun(base: int, n: nat): (t: seq<Access>)
  {
    seq(n, k => Store(base + k, 0))
  }

  lemma ClearRunSnoc(base: int, n: nat)
    ensures ClearRun(base, n + 1) == ClearRun(base, n) + [Store(base + n, 0)]
  {
  }

  /** Clearing offsets 0 .. n-1 stores a single 0 to each of them and nothing anywhere else. */
  lemma {:induction false} ClearRunWrites(base: int, n: nat, addr: int)
    ensures WritesTo(ClearRun(base, n), addr) == if base <= addr < base + n then [0] else []
  {
    if n > 0 {
      ClearRunWrites(base, n - 1, addr);
      ClearRunSnoc(base, n - 1);
      WritesToSnoc(ClearRun(base, n - 1), Store(base + n - 1, 0), addr);
    }
  }

  /** The loop `for (i = 0; i < 25; i++) POKE(base + i, 0x00);`. */
  method ClearRegisters(bus: Bus, base: int)
    modifies bus
    ensures bus.trace == old(bus.trace) + ClearRun(base, RegisterCount)
  {
    var i := 0;
    while i < RegisterCount
      invariant 0 <= i <= RegisterCount
      invariant bus.trace == old(bus.trace) + ClearRun(base, i)
    {
      bus.Poke(base + i, 0x00);
      ClearRunSnoc(base, i);
      i := i + 1;
    }
  }

  // ---------------------------------------------------------------------------
  // Presence test

  function PresenceTrace(base: int, original: byte, readback: byte): seq<Access>
  {
    [Load(base + Volume, original), Store(base + Volume, 0x0F),
     Load(base + Volume, readback), Store(base + Volume, original)]
  }

  /** The presence test stores $0F and then the original value to the volume register, and nothing else. */
  lemma PresenceWrites(base: int, original: byte, readback: byte, addr: int)
    ensures WritesTo(PresenceTrace(base, original, readback), addr)
            == if addr == base + Volume then [0x0F, original] else []
  {
    var t := PresenceTrace(base, original, readback);
    assert t == [t[0]] + [t[1]] + [t[2]] + [t[3]];
    WritesToOne(t[0], addr);
    WritesToSnoc([t[0]], t[1], addr);
    WritesToSnoc([t[0]] + [t[1]], t[2], addr);
    WritesToSnoc([t[0]] + [t[1]] + [t[2]], t[3], addr);
  }

  method IsSidPresent(bus: Bus, base: int, original: byte, readback: byte) returns (present: bool)
    modifies bus
    ensures present == VolumeReadsBack(readback)
    ensures bus.trace == old(bus.trace) + PresenceTrace(base, original, readback)
  {
    var originalVal := bus.Peek(base + Volume, original);
    bus.Poke(base + Volume, 0x0F);
    var testVal := bus.Peek(base + Volume, readback);
    testVal := BitAnd(testVal, 0x0F);
    bus.Poke(base + Volume, originalVal);
    present := testVal == 0x0F;
    VolumeReadsBackIsMask(readback);
  }

  // ---------------------------------------------------------------------------
  // Model detection

  /** The largest sample, starting from 0 as the source's `max` does. */
  function SeqMax(s: seq<byte>): (r: byte)
    ensures forall k :: 0 <= k < |s| ==> s[k] <= r
    ensures r == 0 || r in s
  {
    if s == [] then 0
    else
      var m := SeqMax(s[..|s| - 1]);
      if s[|s| - 1] > m then s[|s| - 1] else m
  }

  /** The threshold classification: 0 none, 1 MOS 6581, 2 MOS 8580. */
  function Classify(max: byte): (model: int)
    ensures 0 <= model <= 2
    ensures model == 2 <==> max >= 0x80
    ensures model == 1 <==> 0x20 <= max < 0x80
    ensures model == 0 <==> max < 0x20
  {
    if max >= 0x80 then 2 else if max >= 0x20 then 1 else 0
  }

  /**
   * The model code `detect_sid_model` returns, stated over the raw samples:
   * 2 when some sample reaches $80, 1 when some sample reaches $20 but none
   * reaches $80, and 0 when the chip is absent or every sample is below $20.
   */
  function SidModel(hw: SidResponse): (model: int)
    ensures 0 <= model <= 2
    ensures !VolumeReadsBack(hw.readback) ==> model == 0
    ensures VolumeReadsBack(hw.readback) ==>
              (model == 2 <==> exists k :: 0 <= k < |hw.samples| && hw.samples[k] >= 0x80)
    ensures VolumeReadsBack(hw.readback) ==>
              (model == 1 <==> (exists k :: 0 <= k < |hw.samples| && hw.samples[k] >= 0x20)
                               && (forall k :: 0 <= k < |hw.samples| ==> hw.samples[k] < 0x80))
    ensures VolumeReadsBack(hw.readback) ==>
              (model == 0 <==> forall k :: 0 <= k < |hw.samples| ==> hw.samples[k] < 0x20)
  {
    if !VolumeReadsBack(hw.readback) then 0 else Classify(SeqMax(hw.samples))
  }

  /** With an oscillator that always answers `c`, the chip is classified by `c` alone. */
  lemma ConstantOscillator(hw: SidResponse, c: byte)
    requires VolumeReadsBack(hw.readback) && |hw.samples| == 256
    requires forall k :: 0 <= k < |hw.samples| ==> hw.samples[k] == c
    ensures SidModel(hw) == Classify(c)
  {
    assert hw.samples[0] == c;
  }

  function OscSetup(base: int): seq<Access>
  {
    [Store(base + 0x0E, 0x20), Store(base + 0x0F, 0x20), Store(base + Voice3Control, 0x31)]
  }

  /** One read of the oscillator 3 output per sample, in order. */
  function SampleReads(base: int, samples: seq<byte>): (t: seq<Access>)
    ensures |t| == |samples|
    ensures forall k :: 0 <= k < |t| ==> t[k] == Load(base + Osc3Output, samples[k])
  {
    if samples == [] then []
    else SampleReads(base, samples[..|samples| - 1]) + [Load(base + Osc3Output, samples[|samples| - 1])]
  }

  /** Blank the screen, clear the chip, start oscillator 3 at frequency $2020 with triangle and sawtooth, gate on. */
  function SamplingSetup(base: int): seq<Access>
  {
    [Store(VicControl, 0x0B)] + ClearRun(base, RegisterCount) + OscSetup(base)
  }

  /** Stop voice 3, clear the chip again, turn the screen back on. */
  function SamplingTeardown(base: int): seq<Access>
  {
    [Store(base + Voice3Control, 0x30)] + ClearRun(base, RegisterCount) + [Store(VicControl, 0x1B)]
  }

  /** Every access `detect_sid_model(base)` makes, in order; the absent path stops after the presence test. */
  function DetectTrace(base: int, hw: SidResponse): seq<Access>
  {
    if !VolumeReadsBack(hw.readback) then PresenceTrace(base, hw.original, hw.readback)
    else PresenceTrace(base, hw.original, hw.readback) + SamplingSetup(base)
         + SampleReads(base, hw.samples) + SamplingTeardown(base)
  }

  /** On the absent path the only stores are those of the presence test, to the volume register. */
  lemma DetectAbsentWrites(base: int, hw: SidResponse, addr: int)
    requires !VolumeReadsBack(hw.readback)
    ensures WritesTo(DetectTrace(base, hw), addr) == if addr == base + Volume then [0x0F, hw.original] else []
  {
    PresenceWrites(base, hw.original, hw.readback, addr);
  }

  /** Address `a` has the same latch in `r` as in `m`: stored to in both or in neither, with the same value. */
  predicate SameLatch(r: map<int, byte>, m: map<int, byte>, a: int)
  {
    (a in r <==> a in m) && (a in m ==> r[a] == m[a])
  }

  /**
   * On the present path the probe leaves registers 0 to 24 at zero (unless one
   * of them is $D011 itself), $D011 at $1B, and every other address as it was.
   */
  lemma DetectPresentLatches(m: map<int, byte>, base: int, hw: SidResponse)
    requires VolumeReadsBack(hw.readback)
    ensures var r := Replay(m, DetectTrace(base, hw));
            && (forall a :: base <= a < base + RegisterCount && a != VicControl ==> a in r && r[a] == 0)
            && VicControl in r && r[VicControl] == 0x1B
            && (forall a :: (a < base || base + RegisterCount <= a) && a != VicControl ==>
                  (a in r <==> a in m) && (a in m ==> r[a] == m[a]))
  {
    var t := DetectTrace(base, hw);
    var front := PresenceTrace(base, hw.original, hw.readback) + SamplingSetup(base) + SampleReads(base, hw.samples);
    forall a | base <= a < base + RegisterCount && a != VicControl
      ensures a in Replay(m, t) && Replay(m, t)[a] == 0
    {
      WritesToAppend(front, SamplingTeardown(base), a);
      TeardownWrites(base, a);
      LatchedIsLastWrite(m, t, a);
    }
    WritesToAppend(front, SamplingTeardown(base), VicControl);
    TeardownWrites(base, VicControl);
    LatchedIsLastWrite(m, t, VicControl);
    forall a | (a < base || base + RegisterCount <= a) && a != VicControl
      ensures (a in Replay(m, t) <==> a in m) && (a in m ==> Replay(m, t)[a] == m[a])
    {
      DetectPresentWritesOutside(base, hw, a);
      LatchedIsLastWrite(m, t, a);
    }
  }

  /** On the absent path only the volume register is stored to, and it is left holding its original value. */
  lemma DetectAbsentLatches(m: map<int, byte>, base: int, hw: SidResponse)
    requires !VolumeReadsBack(hw.readback)
    ensures var r := Replay(m, DetectTrace(base, hw));
            && base + Volume in r && r[base + Volume] == hw.original
            && (forall a :: a != base + Volume ==> (a in r <==> a in m) && (a in m ==> r[a] == m[a]))
  {
    var t := DetectTrace(base, hw);
    DetectAbsentWrites(base, hw, base + Volume);
    LatchedIsLastWrite(m, t, base + Volume);
    forall a | a != base + Volume
      ensures (a in Replay(m, t) <==> a in m) && (a in m ==> Replay(m, t)[a] == m[a])
    {
      DetectAbsentWrites(base, hw, a);
      LatchedIsLastWrite(m, t, a);
    }
  }

  /** The teardown stores 0 last to every register of the chip and $1B last to the VIC control register. */
  lemma TeardownWrites(base: int, a: int)
    ensures var w := WritesTo(SamplingTeardown(base), a);
            && (base <= a < base + RegisterCount && a != VicControl ==> w != [] && w[|w| - 1] == 0)
            && (a == VicControl ==> w != [] && w[|w| - 1] == 0x1B)
  {
    var stop, clear, restore := [Store(base + Voice3Control, 0x30)], ClearRun(base, RegisterCount), [Store(VicControl, 0x1B)];
    WritesToAppend(stop + clear, restore, a);
    WritesToAppend(stop, clear, a);
    WritesToOne(stop[0], a);
    WritesToOne(restore[0], a);
    ClearRunWrites(base, RegisterCount, a);
  }

  /** Outside the chip's registers only the VIC control register is stored to. */
  lemma DetectPresentWritesOutside(base: int, hw: SidResponse, a: int)
    requires VolumeReadsBack(hw.readback)
    requires (a < base || base + RegisterCount <= a) && a != VicControl
    ensures WritesTo(DetectTrace(base, hw), a) == []
  {
    var p, setup, osc3 := PresenceTrace(base, hw.original, hw.readback), SamplingSetup(base), SampleReads(base, hw.samples);
    PresenceWrites(base, hw.original, hw.readback, a);
    SetupWritesOutside(base, a);
    NoStoreWritesNothing(osc3, a);
    TeardownWritesOutside(base, a);
    WritesToAppend(p, setup, a);
    WritesToAppend(p + setup, osc3, a);
    WritesToAppend(p + setup + osc3, SamplingTeardown(base), a);
  }

  lemma SetupWritesOutside(base: int, a: int)
    requires (a < base || base + RegisterCount <= a) && a != VicControl
    ensures WritesTo(SamplingSetup(base), a) == []
  {
    var blank, clear, osc := [Store(VicControl, 0x0B)], ClearRun(base, RegisterCount), OscSetup(base);
    WritesToOne(blank[0], a);
    ClearRunWrites(base, RegisterCount, a);
    NoStoreWritesNothing(osc, a);
    WritesToAppend(blank, clear, a);
    WritesToAppend(blank + clear, osc, a);
  }

  lemma TeardownWritesOutside(base: int, a: int)
    requires (a < base || base + RegisterCount <= a) && a != VicControl
    ensures WritesTo(SamplingTeardown(base), a) == []
  {
    var stop, clear, restore := [Store(base + Voice3Control, 0x30)], ClearRun(base, RegisterCount), [Store(VicControl, 0x1B)];
    WritesToOne(stop[0], a);
    ClearRunWrites(base, RegisterCount, a);
    WritesToOne(restore[0], a);
    WritesToAppend(stop, clear, a);
    WritesToAppend(stop + clear, restore, a);
  }

  method DetectSidModel(bus: Bus, base: int, hw: SidResponse) returns (model: int)
    requires |hw.samples| == 256
    modifies bus
    ensures model == SidModel(hw)
    ensures bus.trace == old(bus.trace) + DetectTrace(base, hw)
    ensures !VolumeReadsBack(hw.readback) ==>
              base + Volume in bus.Latched() && bus.Latched()[base + Volume] == hw.original
              && forall a :: a != base + Volume ==> SameLatch(bus.Latched(), old(bus.Latched()), a)
    ensures VolumeReadsBack(hw.readback) ==>
              (forall a :: base <= a < base + RegisterCount && a != VicControl ==>
                 a in bus.Latched() && bus.Latched()[a] == 0)
              && VicControl in bus.Latched() && bus.Latched()[VicControl] == 0x1B
              && forall a :: (a < base || base + RegisterCount <= a) && a != VicControl ==>
                   SameLatch(bus.Latched(), old(bus.Latched()), a)
  {
    ghost var t0 := bus.trace;
    var present := IsSidPresent(bus, base, hw.original, hw.readback);
    if !present {
      ReplayAppend(bus.initial, t0, DetectTrace(base, hw));
      DetectAbsentLatches(Replay(bus.initial, t0), base, hw);
      return 0;
    }
    ghost var p := PresenceTrace(base, hw.original, hw.readback);
    model := MeasureModel(bus, base, hw.samples);
    AppendAssoc(t0, p + SamplingSetup(base) + SampleReads(base, hw.samples), SamplingTeardown(base));
    AppendAssoc(t0, p + SamplingSetup(base), SampleReads(base, hw.samples));
    AppendAssoc(t0, p, SamplingSetup(base));
    ReplayAppend(bus.initial, t0, DetectTrace(base, hw));
    DetectPresentLatches(Replay(bus.initial, t0), base, hw);
  }

  /** The sampling half of the detection: 256 reads of OSC3 and the classification of their maximum. */
  method MeasureModel(bus: Bus, base: int, samples: seq<byte>) returns (model: int)
    requires |samples| == 256
    modifies bus
    ensures model == Classify(SeqMax(samples))
    ensures bus.trace == old(bus.trace) + SamplingSetup(base) + SampleReads(base, samples) + SamplingTeardown(base)
  {
    StartSampling(bus, base);
    var max := SampleOsc3(bus, base, samples);
    StopSampling(bus, base);
    if max >= 0x80 {
      model := 2;
    } else if max >= 0x20 {
      model := 1;
    } else {
      model := 0;
    }
  }

  method StartSampling(bus: Bus, base: int)
    modifies bus
    ensures bus.trace == old(bus.trace) + SamplingSetup(base)
  {
    ghost var t0 := bus.trace;
    bus.Poke(VicControl, 0x0B);
    ClearRegisters(bus, base);
    bus.Poke(base + 0x0E, 0x20);
    bus.Poke(base + 0x0F, 0x20);
    bus.Poke(base + Voice3Control, 0x31);
    ghost var blank, clear, osc := [Store(VicControl, 0x0B)], ClearRun(base, RegisterCount), OscSetup(base);
    assert bus.trace == t0 + blank + clear + osc;
    AppendAssoc(t0, blank + clear, osc);
    AppendAssoc(t0, blank, clear);
  }

  /** The sampling loop: 256 reads of OSC3, keeping the largest. */
  method SampleOsc3(bus: Bus, base: int, samples: seq<byte>) returns (max: byte)
    requires |samples| == 256
    modifies bus
    ensures bus.trace == old(bus.trace) + SampleReads(base, samples)
    ensures max == SeqMax(samples)
  {
    max := 0;
    var i := 0;
    while i < 256
      invariant 0 <= i <= 256
      invariant bus.trace == old(bus.trace) + SampleReads(base, samples[..i])
      invariant max == SeqMax(samples[..i])
    {
      var sample := bus.Peek(base + Osc3Output, samples[i]);
      assert samples[..i + 1][..i] == samples[..i];
      if sample > max {
        max := sample;
      }
      i := i + 1;
    }
    assert samples[..256] == samples;
  }

  method StopSampling(bus: Bus, base: int)
    modifies bus
    ensures bus.trace == old(bus.trace) + SamplingTeardown(base)
  {
    ghost var t0 := bus.trace;
    bus.Poke(base + Voice3Control, 0x30);
    ClearRegisters(bus, base);
    bus.Poke(VicControl, 0x1B);
    ghost var stop, clear, restore := [Store(base + Voice3Control, 0x30)], ClearRun(base, RegisterCount), [Store(VicControl, 0x1B)];
    assert bus.trace == t0 + stop + clear + restore;
    AppendAssoc(t0, stop + clear, restore);
    AppendAssoc(t0, stop, clear);
  }

  // ---------------------------------------------------------------------------
  // Second SID and comment

  /** The second SID as the screen reports it: its model code and its address, 0 when none. */
  datatype SecondSid = SecondSid(model: int, addr: int)

  /**
   * $DE00 wins when a chip is detected there; $DF00 is consulted only
   * otherwise, and its result is reported whatever it is.
   */
  function ChooseSecondSid(atDE00: int, atDF00: int): (s: SecondSid)
    requires 0 <= atDE00 <= 2 && 0 <= atDF00 <= 2
    ensures s.addr == Sid2Mssiah <==> atDE00 != 0
    ensures s.addr == Sid2Cynthcart <==> atDE00 == 0 && atDF00 != 0
    ensures s.addr == 0 <==> atDE00 == 0 && atDF00 == 0
    ensures s.model != 0 <==> s.addr != 0
    ensures s.addr == Sid2Mssiah ==> s.model == atDE00
    ensures s.addr != Sid2Mssiah ==> s.model == atDF00
  {
    if atDE00 == 1 || atDE00 == 2 then SecondSid(atDE00, Sid2Mssiah)
    else if atDF00 == 1 || atDF00 == 2 then SecondSid(atDF00, Sid2Cynthcart)
    else SecondSid(atDF00, 0)
  }

  /** The line shown under the detection results. */
  datatype Comment =
    | NoComment
    | Personality(model: int)   // the `sid_comment` entry for that model
    | Naughty                   // "Different SID's? Someone was naughty!"

  function ChooseComment(sid1: int, sid2: int): (c: Comment)
    requires 0 <= sid1 <= 2 && 0 <= sid2 <= 2
    ensures c == NoComment <==> sid1 == 0
    ensures c == Naughty <==> sid1 != 0 && sid2 != 0 && sid1 != sid2
    ensures c.Personality? ==> c.model == sid1 && (sid2 == 0 || sid2 == sid1)
  {
    if (sid1 == 1 || sid1 == 2) && sid2 == 0 then Personality(sid1)
    else if sid1 != 0 && sid2 != 0 && sid1 == sid2 then Personality(sid1)
    else if sid1 != 0 && sid2 != 0 && sid1 != sid2 then Naughty
    else NoComment
  }

  datatype SidReport = SidReport(sid1: int, second: SecondSid, comment: Comment)

  /** Everything the detection part of `draw_sid_info_screen` stores to or reads from the bus. */
  function DetectAllTrace(hw1: SidResponse, hwDE: SidResponse, hwDF: SidResponse): seq<Access>
  {
    DetectTrace(Sid1Base, hw1) + DetectTrace(Sid2Mssiah, hwDE)
    + (if SidModel(hwDE) == 0 then DetectTrace(Sid2Cynthcart, hwDF) else [])
  }

  method DetectSids(bus: Bus, hw1: SidResponse, hwDE: SidResponse, hwDF: SidResponse)
    returns (report: SidReport)
    requires |hw1.samples| == 256 && |hwDE.samples| == 256 && |hwDF.samples| == 256
    modifies bus
    ensures report.sid1 == SidModel(hw1)
    ensures report.second == ChooseSecondSid(SidModel(hwDE), SidModel(hwDF))
    ensures report.comment == ChooseComment(report.sid1, report.second.model)
    ensures bus.trace == old(bus.trace) + DetectAllTrace(hw1, hwDE, hwDF)
  {
    ghost var t0 := bus.trace;
    var sid1 := DetectSidModel(bus, Sid1Base, hw1);
    var sid2 := DetectSidModel(bus, Sid2Mssiah, hwDE);
    AppendAssoc(t0, DetectTrace(Sid1Base, hw1), DetectTrace(Sid2Mssiah, hwDE));
    ghost var t1 := bus.trace;
    var sid2Addr := 0;
    if sid2 == 1 || sid2 == 2 {
      sid2Addr := Sid2Mssiah;
      assert bus.trace == t1 + [];
    } else {
      sid2 := DetectSidModel(bus, Sid2Cynthcart, hwDF);
      if sid2 == 1 || sid2 == 2 {
        sid2Addr := Sid2Cynthcart;
      }
    }
    AppendAssoc(t0, DetectTrace(Sid1Base, hw1) + DetectTrace(Sid2Mssiah, hwDE),
                if SidModel(hwDE) == 0 then DetectTrace(Sid2Cynthcart, hwDF) else []);
    var comment := NoComment;
    if (sid1 == 1 || sid1 == 2) && sid2 == 0 {
      comment := Personality(sid1);
    } else if sid1 != 0 && sid2 != 0 && sid1 == sid2 {
      comment := Personality(sid1);
    } else if sid1 != 0 && sid2 != 0 && sid1 != sid2 {
      comment := Naughty;
    }
    report := SidReport(sid1, SecondSid(sid2, sid2Addr), comment);
  }

  // ---------------------------------------------------------------------------
  // Keys on the SID screen

  datatype SidAction = Ignore | PlaySweep(base: int) | Leave

  predicate WellFormedSecond(s: SecondSid)
  {
    (s.addr == 0 || s.addr == Sid2Mssiah || s.addr == Sid2Cynthcart) && (s.model != 0 <==> s.addr != 0)
  }

  /** F1 plays on SID 1 when it was detected, F2 on the second SID when one was found, F8 leaves. */
  function SidKeyAction(key: Key, sid1: int, second: SecondSid): (act: SidAction)
    requires WellFormedSecond(second)
    ensures act == Leave <==> key == F8
    ensures act.PlaySweep? ==>
              (key == F1 && sid1 != 0 && act.base == Sid1Base)
              || (key == F2 && second.model != 0 && act.base == second.addr
                  && (act.base == Sid2Mssiah || act.base == Sid2Cynthcart))
    ensures act == Ignore <==> !(key == F8 || (key == F1 && sid1 != 0) || (key == F2 && second.model != 0))
  {
    if key == F1 && sid1 != 0 then PlaySweep(Sid1Base)
    else if key == F2 && second.model != 0 then PlaySweep(second.addr)
    else if key == F8 then Leave
    else Ignore
  }

  /** The accesses one key's action makes: a filter sweep, or nothing. */
  function ActionTrace(act: SidAction): seq<Access>
  {
    if act.PlaySweep? then FlatSweep(act.base) else []
  }

  /** The accesses made by the screen's key loop from key `i` of `keys` on, up to the first F8. */
  function KeyLoopTrace(sid1: int, second: SecondSid, keys: seq<Key>, i: nat): seq<Access>
    requires WellFormedSecond(second) && i <= |keys|
    decreases |keys| - i
  {
    if i == |keys| then []
    else if SidKeyAction(keys[i], sid1, second) == Leave then []
    else ActionTrace(SidKeyAction(keys[i], sid1, second)) + KeyLoopTrace(sid1, second, keys, i + 1)
  }

  /** Handles one key of the screen: F1/F2 play a sweep when that chip is there, F8 leaves. */
  method HandleSidKey(bus: Bus, sid1: int, second: SecondSid, key: Key) returns (leave: bool)
    requires WellFormedSecond(second)
    modifies bus
    ensures leave == (key == F8)
    ensures bus.trace == old(bus.trace) + ActionTrace(SidKeyAction(key, sid1, second))
  {
    leave := false;
    if key == F1 && sid1 != 0 {
      PlayFilterSweep(bus, Sid1Base);
    } else if key == F2 && second.model != 0 {
      PlayFilterSweep(bus, second.addr);
    } else if key == F8 {
      leave := true;
      assert bus.trace + [] == bus.trace;
    } else {
      assert bus.trace + [] == bus.trace;
    }
  }

  /** One turn of the key loop: key `i` is handled and the loop's trace moves on by one key. */
  method SidScreenKey(bus: Bus, sid1: int, second: SecondSid, keys: seq<Key>, i: nat, ghost t0: seq<Access>)
    returns (leave: bool)
    requires WellFormedSecond(second) && i < |keys|
    requires t0 + KeyLoopTrace(sid1, second, keys, 0) == bus.trace + KeyLoopTrace(sid1, second, keys, i)
    modifies bus
    ensures leave == (keys[i] == F8)
    ensures leave ==> bus.trace == t0 + KeyLoopTrace(sid1, second, keys, 0)
    ensures !leave ==> t0 + KeyLoopTrace(sid1, second, keys, 0) == bus.trace + KeyLoopTrace(sid1, second, keys, i + 1)
  {
    ghost var before := bus.trace;
    if keys[i] == F8 {
      assert bus.trace + [] == bus.trace;
      return true;
    }
    leave := HandleSidKey(bus, sid1, second, keys[i]);
    AppendAssoc(before, ActionTrace(SidKeyAction(keys[i], sid1, second)), KeyLoopTrace(sid1, second, keys, i + 1));
  }

  /**
   * The `while (1)` key loop of the screen. `left` tells whether F8 came;
   * when the keys run out first the screen is still waiting in cgetc.
   */
  method SidScreenKeys(bus: Bus, sid1: int, second: SecondSid, keys: seq<Key>) returns (left: bool)
    requires WellFormedSecond(second)
    modifies bus
    ensures left <==> exists j :: 0 <= j < |keys| && keys[j] == F8
    ensures bus.trace == old(bus.trace) + KeyLoopTrace(sid1, second, keys, 0)
  {
    var i := 0;
    left := false;
    while i < |keys|
      invariant 0 <= i <= |keys|
      invariant forall j :: 0 <= j < i ==> keys[j] != F8
      invariant old(bus.trace) + KeyLoopTrace(sid1, second, keys, 0) == bus.trace + KeyLoopTrace(sid1, second, keys, i)
    {
      var leave := SidScreenKey(bus, sid1, second, keys, i, old(bus.trace));
      if leave {
        left := true;
        return;
      }
      i := i + 1;
    }
    assert bus.trace + [] == bus.trace;
  }

  method DrawSidInfoScreen(bus: Bus, hw1: SidResponse, hwDE: SidResponse, hwDF: SidResponse, keys: seq<Key>)
    returns (report: SidReport, left: bool)
    requires |hw1.samples| == 256 && |hwDE.samples| == 256 && |hwDF.samples| == 256
    modifies bus
    ensures report.sid1 == SidModel(hw1)
    ensures report.second == ChooseSecondSid(SidModel(hwDE), SidModel(hwDF))
    ensures report.comment == ChooseComment(report.sid1, report.second.model)
    ensures left <==> exists j :: 0 <= j < |keys| && keys[j] == F8
    ensures bus.trace == old(bus.trace) + DetectAllTrace(hw1, hwDE, hwDF)
                         + KeyLoopTrace(report.sid1, report.second, keys, 0)
  {
    report := DetectSids(bus, hw1, hwDE, hwDF);
    left := SidScreenKeys(bus, report.sid1, report.second, keys);
  }

  // ---------------------------------------------------------------------------
  // Filter sweep

  /** The cutoff loop runs while the cutoff is below this value, in steps of 8. */
  const CutoffLimit := 2048
  /** The resonance demo steps through this many resonance values. */
  const ResonanceLevels := 16

  const FilterModes: seq<byte> := [0x10, 0x20, 0x40, 0x50]  // low-pass, band-pass, high-pass, notch

  /** The volume/mode byte of filter pass `filterType`: its mode bits and full volume. */
  function ModeVolume(filterType: int): byte
    requires 0 <= filterType < 4
  {
    FilterModes[filterType] + 0x0F
  }

  /** The byte is the source's `filter_modes[filter_type] | 0x0F`. */
  lemma ModeVolumeIsOr(filterType: int)
    requires 0 <= filterType < 4
    ensures ModeVolume(filterType) == BitOr(FilterModes[filterType], 0x0F)
  {
    var mode := FilterModes[filterType];
    assert mode % 16 == 0 && mode + 0x0F < 256;
    assert Pow2(4) == 16;
    OrIntoZeroBits(mode, 0x0F, 4);
  }

  function VoiceSetup(base: int): seq<Access>
  {
    [Store(base + 0x00, 0x00), Store(base + 0x01, 0x08), Store(base + 0x02, 0x00),
     Store(base + 0x03, 0x08), Store(base + 0x05, 0x00), Store(base + 0x06, 0xF0)]
  }

  /** The FC LO byte of `cutoff`. */
  function CutoffLo(cutoff: nat): byte
  {
    cutoff % 256
  }

  /** The FC HI byte of `cutoff`: only three bits of it are used. */
  function CutoffHi(cutoff: nat): byte
  {
    cutoff / 256 % 8
  }

  /** The two bytes are the source's `cutoff & 0xFF` and `(cutoff >> 8) & 0x07`. */
  lemma CutoffBytesAreMasks(cutoff: nat)
    ensures CutoffLo(cutoff) == BitAnd(cutoff, 0xFF)
    ensures CutoffHi(cutoff) == BitAnd(cutoff / Pow2(8), 0x07)
  {
    assert Pow2(8) == 256 && Pow2(3) == 8;
    CutoffLoIsMask(cutoff);
    AndLowMask(cutoff / 256, 3);
  }

  lemma CutoffLoIsMask(cutoff: nat)
    ensures CutoffLo(cutoff) == BitAnd(cutoff, 0xFF)
  {
    assert Pow2(8) == 256;
    AndLowMask(cutoff, 8);
  }

  /** Below 2048 the two stored bytes determine the cutoff, and the high byte is at most 7. */
  lemma CutoffEncoding(cutoff: nat)
    requires cutoff < CutoffLimit
    ensures CutoffHi(cutoff) <= 7
    ensures CutoffHi(cutoff) as int * 256 + CutoffLo(cutoff) as int == cutoff
  {
  }

  /**
   * The k-th store of the cutoff loop: the even ones write the low byte and
   * the odd ones the high byte of the cutoff 8 * (k / 2).
   */
  function CutoffStore(base: int, k: nat): Access
  {
    if k % 2 == 0 then Store(base + FilterCutoffLo, CutoffLo(8 * (k / 2)))
    else Store(base + FilterCutoffHi, CutoffHi(8 * (k / 2)))
  }

  /** The stores of the cutoff loop for the cutoffs 0, 8, ..., c - 8. */
  function CutoffRun(base: int, c: int): seq<Access>
    requires 0 <= c && c % 8 == 0
  {
    seq(c / 4, k requires 0 <= k => CutoffStore(base, k))
  }

  lemma CutoffRunSnoc(base: int, c: int)
    requires 0 <= c && c % 8 == 0
    ensures CutoffRun(base, c + 8) == CutoffRun(base, c)
              + [Store(base + FilterCutoffLo, CutoffLo(c)), Store(base + FilterCutoffHi, CutoffHi(c))]
  {
    var m := c / 8;
    assert c / 4 == 2 * m && (c + 8) / 4 == 2 * m + 2;
    assert (2 * m) % 2 == 0 && (2 * m) / 2 == m;
    assert (2 * m + 1) % 2 == 1 && (2 * m + 1) / 2 == m;
    var r, s := CutoffRun(base, c + 8), CutoffRun(base, c)
                  + [Store(base + FilterCutoffLo, CutoffLo(c)), Store(base + FilterCutoffHi, CutoffHi(c))];
    forall k | 0 <= k < 2 * m + 2
      ensures r[k] == s[k]
    {
      if k >= 2 * m {
        assert k == 2 * m || k == 2 * m + 1;
      }
    }
    assert r == s;
  }

  /** The cutoff loop stores to the two cutoff registers only. */
  lemma CutoffRunTouches(base: int, c: int, addr: int)
    requires 0 <= c && c % 8 == 0
    requires addr != base + FilterCutoffLo && addr != base + FilterCutoffHi
    ensures WritesTo(CutoffRun(base, c), addr) == []
  {
    NoStoreWritesNothing(CutoffRun(base, c), addr);
  }

  /**
   * The cutoff loop stores each cutoff register once per step: the j-th
   * values stored are the low and high byte of the cutoff 8j.
   */
  lemma CutoffRunWrites(base: int, c: int)
    requires 0 <= c && c % 8 == 0
    ensures WritesTo(CutoffRun(base, c), base + FilterCutoffLo) == seq(c / 8, j requires 0 <= j => CutoffLo(8 * j))
    ensures WritesTo(CutoffRun(base, c), base + FilterCutoffHi) == seq(c / 8, j requires 0 <= j => CutoffHi(8 * j))
  {
    var n := c / 8;
    assert c == 8 * n;
    CutoffLoWrites(base, n);
    CutoffHiWrites(base, n);
  }

  /** The FC LO values of the first `n` cutoff steps. */
  function LoValues(n: nat): seq<byte>
  {
    seq(n, j requires 0 <= j => CutoffLo(8 * j))
  }

  /** The FC HI values of the first `n` cutoff steps. */
  function HiValues(n: nat): seq<byte>
  {
    seq(n, j requires 0 <= j => CutoffHi(8 * j))
  }

  lemma LoValuesSnoc(n: nat)
    requires n > 0
    ensures LoValues(n) == LoValues(n - 1) + [CutoffLo(8 * (n - 1))]
  {
    var a, b := LoValues(n), LoValues(n - 1) + [CutoffLo(8 * (n - 1))];
    forall j | 0 <= j < n
      ensures a[j] == b[j]
    {
      if j < n - 1 {
        assert b[j] == LoValues(n - 1)[j];
      }
    }
  }

  lemma HiValuesSnoc(n: nat)
    requires n > 0
    ensures HiValues(n) == HiValues(n - 1) + [CutoffHi(8 * (n - 1))]
  {
    var a, b := HiValues(n), HiValues(n - 1) + [CutoffHi(8 * (n - 1))];
    forall j | 0 <= j < n
      ensures a[j] == b[j]
    {
      if j < n - 1 {
        assert b[j] == HiValues(n - 1)[j];
      }
    }
  }

  /** Cutoff step `n - 1` stores its FC LO byte and then its FC HI byte. */
  lemma CutoffStepWrites(base: int, n: nat)
    requires n > 0
    ensures WritesTo(CutoffRun(base, 8 * n), base + FilterCutoffLo)
            == WritesTo(CutoffRun(base, 8 * (n - 1)), base + FilterCutoffLo) + [CutoffLo(8 * (n - 1))]
    ensures WritesTo(CutoffRun(base, 8 * n), base + FilterCutoffHi)
            == WritesTo(CutoffRun(base, 8 * (n - 1)), base + FilterCutoffHi) + [CutoffHi(8 * (n - 1))]
  {
    var c := 8 * (n - 1);
    var prev := CutoffRun(base, c);
    var x := Store(base + FilterCutoffLo, CutoffLo(c));
    var y := Store(base + FilterCutoffHi, CutoffHi(c));
    CutoffRunSnoc(base, c);
    assert c + 8 == 8 * n;
    assert CutoffRun(base, 8 * n) == prev + [x] + [y];
    WritesToSnoc(prev, x, base + FilterCutoffLo);
    WritesToSnoc(prev + [x], y, base + FilterCutoffLo);
    WritesToSnoc(prev, x, base + FilterCutoffHi);
    WritesToSnoc(prev + [x], y, base + FilterCutoffHi);
  }

  lemma {:induction false} CutoffLoWrites(base: int, n: nat)
    ensures WritesTo(CutoffRun(base, 8 * n), base + FilterCutoffLo) == LoValues(n)
  {
    if n > 0 {
      CutoffLoWrites(base, n - 1);
      CutoffStepWrites(base, n);
      LoValuesSnoc(n);
    }
  }

  lemma {:induction false} CutoffHiWrites(base: int, n: nat)
    ensures WritesTo(CutoffRun(base, 8 * n), base + FilterCutoffHi) == HiValues(n)
  {
    if n > 0 {
      CutoffHiWrites(base, n - 1);
      CutoffStepWrites(base, n);
      HiValuesSnoc(n);
    }
  }

  /** The k-th pair of bytes the cutoff loop stores encodes the cutoff 8k, and the high byte is at most 7. */
  lemma CutoffRunEncodes(base: int, c: int)
    requires 0 <= c <= CutoffLimit && c % 8 == 0
    ensures var lo, hi := WritesTo(CutoffRun(base, c), base + FilterCutoffLo), WritesTo(CutoffRun(base, c), base + FilterCutoffHi);
            && |lo| == c / 8 && |hi| == c / 8
            && forall k :: 0 <= k < c / 8 ==> hi[k] <= 7 && hi[k] as int * 256 + lo[k] as int == 8 * k
  {
    CutoffRunWrites(base, c);
    forall k | 0 <= k < c / 8
      ensures CutoffHi(8 * k) <= 7 && CutoffHi(8 * k) as int * 256 + CutoffLo(8 * k) as int == 8 * k
    {
      CutoffEncoding(8 * k);
    }
  }

  /** The three stores that open a filter pass: gate on, filter voice 1, mode and volume. */
  function FilterPassHead(base: int, filterType: int): seq<Access>
    requires 0 <= filterType < 4
  {
    [Store(base + Voice1Control, 0x21), Store(base + FilterControl, 0x81),
     Store(base + Volume, ModeVolume(filterType))]
  }

  function FilterPass(base: int, filterType: int): seq<Access>
    requires 0 <= filterType < 4
  {
    FilterPassHead(base, filterType) + CutoffRun(base, CutoffLimit) + [Store(base + Voice1Control, 0x20)]
  }

  function FilterPasses(base: int, n: int): seq<Access>
    requires 0 <= n <= 4
  {
    if n == 0 then [] else FilterPasses(base, n - 1) + FilterPass(base, n - 1)
  }

  function ResonanceSetup(base: int): seq<Access>
  {
    [Store(base + FilterCutoffLo, 0x00), Store(base + FilterCutoffHi, 0x02), Store(base + Volume, 0x1F)]
  }

  /** The filter control byte of resonance step `i`: resonance `i` in the high nibble, voice 1 routed through the filter. */
  function ResonanceControl(i: int): byte
    requires 0 <= i < ResonanceLevels
  {
    i * 16 + 0x01
  }

  /** The byte is the source's `(i << 4) | 0x01`. */
  lemma ResonanceControlIsOr(i: int)
    requires 0 <= i < ResonanceLevels
    ensures ResonanceControl(i) == BitOr(i * Pow2(4), 0x01)
  {
    assert Pow2(4) == 16 && Pow2(1) == 2;
    OrIntoZeroBits(i * 16, 1, 1);
  }

  /** The three stores of one resonance step: gate on, resonance and routing, gate off. */
  function ResonanceStep(base: int, i: int): seq<Access>
    requires 0 <= i < ResonanceLevels
  {
    [Store(base + Voice1Control, 0x21), Store(base + FilterControl, ResonanceControl(i)),
     Store(base + Voice1Control, 0x20)]
  }

  /** The k-th store of the resonance loop, which belongs to step k / 3. */
  function ResonanceStore(base: int, k: nat): Access
    requires k < 3 * ResonanceLevels
  {
    ResonanceStep(base, k / 3)[k % 3]
  }

  function ResonanceRun(base: int, n: int): seq<Access>
    requires 0 <= n <= ResonanceLevels
  {
    seq(3 * n, k requires 0 <= k < 3 * n => ResonanceStore(base, k))
  }

  lemma ResonanceRunSnoc(base: int, n: int)
    requires 0 <= n < ResonanceLevels
    ensures ResonanceRun(base, n + 1) == ResonanceRun(base, n) + ResonanceStep(base, n)
  {
    var r, s := ResonanceRun(base, n + 1), ResonanceRun(base, n) + ResonanceStep(base, n);
    forall k | 3 * n <= k < 3 * n + 3
      ensures r[k] == s[k]
    {
      assert k / 3 == n && k % 3 == k - 3 * n;
    }
    assert r == s;
  }

  /** Every store `play_sid_filter_sweep(base)` makes, in order, phase by phase. */
  function SweepPhases(base: int): seq<Access>
  {
    ClearRun(base, RegisterCount) + VoiceSetup(base) + FilterPasses(base, 4)
    + ResonanceSetup(base) + ResonanceRun(base, ResonanceLevels) + ClearRun(base, RegisterCount)
  }

  /** A sweep makes 25 + 6 + 4 * 516 + 3 + 48 + 25 accesses. */
  const SweepLength := 2171

  lemma SweepPhasesLength(base: int)
    ensures |SweepPhases(base)| == SweepLength
  {
    FilterPassesLength(base, 4);
  }

  lemma {:induction false} FilterPassesLength(base: int, n: int)
    requires 0 <= n <= 4
    ensures |FilterPasses(base, n)| == 516 * n
  {
    if n > 0 {
      FilterPassesLength(base, n - 1);
    }
  }

  /**
   * `SweepPhases` flattened into a sequence comprehension of known length:
   * specifications that only pass a sweep along (the key loop's trace) use
   * this form, which does not expose the six phases; `FlatSweepIsPhases`
   * shows the two are equal.
   */
  function FlatSweep(base: int): seq<Access>
  {
    SweepPhasesLength(base);
    seq(SweepLength, k requires 0 <= k < SweepLength => SweepPhases(base)[k])
  }

  lemma FlatSweepIsPhases(base: int)
    ensures FlatSweep(base) == SweepPhases(base)
  {
    SweepPhasesLength(base);
  }

  /** The cutoff loop of one filter pass: `for (cutoff = 0; cutoff < 2048; cutoff += 8)`. */
  method SweepCutoff(bus: Bus, base: int)
    modifies bus
    ensures bus.trace == old(bus.trace) + CutoffRun(base, CutoffLimit)
  {
    var cutoff := 0;
    while cutoff < CutoffLimit
      invariant 0 <= cutoff <= CutoffLimit && cutoff % 8 == 0
      invariant bus.trace == old(bus.trace) + CutoffRun(base, cutoff)
    {
      PokeCutoff(bus, base, cutoff, old(bus.trace));
      cutoff := cutoff + 8;
    }
  }

  /** One pass of the cutoff loop: FC LO, then FC HI. */
  method PokeCutoff(bus: Bus, base: int, cutoff: int, ghost t0: seq<Access>)
    requires 0 <= cutoff && cutoff % 8 == 0
    requires bus.trace == t0 + CutoffRun(base, cutoff)
    modifies bus
    ensures bus.trace == t0 + CutoffRun(base, cutoff + 8)
  {
    bus.Poke(base + FilterCutoffLo, CutoffLo(cutoff));
    bus.Poke(base + FilterCutoffHi, CutoffHi(cutoff));
    CutoffRunSnoc(base, cutoff);
  }

  /** One pass of the filter-type loop: gate on, filter and mode set, cutoff swept, gate off. */
  method PlayFilterPass(bus: Bus, base: int, filterType: int)
    requires 0 <= filterType < 4
    modifies bus
    ensures bus.trace == old(bus.trace) + FilterPass(base, filterType)
  {
    ghost var t0 := bus.trace;
    StartFilterPass(bus, base, filterType);
    ghost var t1 := bus.trace;
    SweepCutoff(bus, base);
    ghost var run := CutoffRun(base, CutoffLimit);
    bus.Poke(base + Voice1Control, 0x20);
    ghost var head, tail := FilterPassHead(base, filterType), [Store(base + Voice1Control, 0x20)];
    assert bus.trace == t0 + head + run + tail;
    AppendAssoc(t0, head + run, tail);
    AppendAssoc(t0, head, run);
  }

  /** The opening stores of a filter pass; `mode | $0F` goes to the volume register. */
  method StartFilterPass(bus: Bus, base: int, filterType: int)
    requires 0 <= filterType < 4
    modifies bus
    ensures bus.trace == old(bus.trace) + FilterPassHead(base, filterType)
  {
    bus.Poke(base + Voice1Control, 0x21);
    bus.Poke(base + FilterControl, 0x81);
    ModeVolumeIsOr(filterType);
    var modeVolume := BitOr(FilterModes[filterType], 0x0F);
    bus.Poke(base + Volume, modeVolume);
  }

  /** The resonance loop: `for (i = 0; i < 16; i++)`. */
  method PlayResonanceSteps(bus: Bus, base: int)
    modifies bus
    ensures bus.trace == old(bus.trace) + ResonanceRun(base, ResonanceLevels)
  {
    var i := 0;
    while i < ResonanceLevels
      invariant 0 <= i <= ResonanceLevels
      invariant bus.trace == old(bus.trace) + ResonanceRun(base, i)
    {
      PokeResonance(bus, base, i);
      ResonanceRunSnoc(base, i);
      AppendAssoc(old(bus.trace), ResonanceRun(base, i), ResonanceStep(base, i));
      i := i + 1;
    }
  }

  /** One pass of the resonance loop: gate on, resonance `i` with voice 1 filtered, gate off. */
  method PokeResonance(bus: Bus, base: int, i: int)
    requires 0 <= i < ResonanceLevels
    modifies bus
    ensures bus.trace == old(bus.trace) + ResonanceStep(base, i)
  {
    bus.Poke(base + Voice1Control, 0x21);
    ResonanceControlIsOr(i);
    bus.Poke(base + FilterControl, BitOr(i * Pow2(4), 0x01));
    bus.Poke(base + Voice1Control, 0x20);
  }

  /** `play_sid_filter_sweep(base)`: the demonstration ends with the chip's registers cleared. */
  method PlayFilterSweep(bus: Bus, base: int)
    modifies bus
    ensures bus.trace == old(bus.trace) + FlatSweep(base)
    ensures forall a :: base <= a < base + RegisterCount ==> a in bus.Latched() && bus.Latched()[a] == 0
  {
    ghost var t0 := bus.trace;
    StartSweep(bus, base);
    PlayFilterPasses(bus, base);
    StartResonance(bus, base);
    PlayResonanceSteps(bus, base);
    ClearRegisters(bus, base);
    SweepPhasesAssoc(t0, base);
    FlatSweepIsPhases(base);
    ReplayAppend(bus.initial, t0, FlatSweep(base));
    SweepEndsSilent(Replay(bus.initial, t0), base);
  }

  /** The sweep's trace is that of its phases in a row. */
  lemma SweepPhasesAssoc(t0: seq<Access>, base: int)
    ensures t0 + SweepPhases(base)
            == t0 + ClearRun(base, RegisterCount) + VoiceSetup(base) + FilterPasses(base, 4)
               + ResonanceSetup(base) + ResonanceRun(base, ResonanceLevels) + ClearRun(base, RegisterCount)
  {
  }

  /** Clear the chip and set up voice 1: pulse width, attack/decay, sustain/release. */
  method StartSweep(bus: Bus, base: int)
    modifies bus
    ensures bus.trace == old(bus.trace) + ClearRun(base, RegisterCount) + VoiceSetup(base)
  {
    ghost var t0 := bus.trace;
    ClearRegisters(bus, base);
    ghost var t1 := bus.trace;
    bus.Poke(base + 0x00, 0x00);
    bus.Poke(base + 0x01, 0x08);
    bus.Poke(base + 0x02, 0x00);
    bus.Poke(base + 0x03, 0x08);
    bus.Poke(base + 0x05, 0x00);
    bus.Poke(base + 0x06, 0xF0);
    assert bus.trace == t1 + VoiceSetup(base);
  }

  /** The loop over the four filter modes. */
  method PlayFilterPasses(bus: Bus, base: int)
    modifies bus
    ensures bus.trace == old(bus.trace) + FilterPasses(base, 4)
  {
    var filterType := 0;
    while filterType < 4
      invariant 0 <= filterType <= 4
      invariant bus.trace == old(bus.trace) + FilterPasses(base, filterType)
    {
      PlayFilterPass(bus, base, filterType);
      AppendAssoc(old(bus.trace), FilterPasses(base, filterType), FilterPass(base, filterType));
      filterType := filterType + 1;
    }
  }

  /** Cutoff $200 and low-pass mode at full volume before the resonance steps. */
  method StartResonance(bus: Bus, base: int)
    modifies bus
    ensures bus.trace == old(bus.trace) + ResonanceSetup(base)
  {
    bus.Poke(base + FilterCutoffLo, 0x00);
    bus.Poke(base + FilterCutoffHi, 0x02);
    bus.Poke(base + Volume, 0x1F);
  }

  /** After the sweep, registers 0 to 24 of the chip are all zero. */
  lemma SweepEndsSilent(m: map<int, byte>, base: int)
    ensures forall a :: base <= a < base + RegisterCount ==>
              a in Replay(m, FlatSweep(base)) && Replay(m, FlatSweep(base))[a] == 0
  {
    FlatSweepIsPhases(base);
    var body := ClearRun(base, RegisterCount) + VoiceSetup(base) + FilterPasses(base, 4)
                + ResonanceSetup(base) + ResonanceRun(base, ResonanceLevels);
    forall a | base <= a < base + RegisterCount
      ensures a in Replay(m, FlatSweep(base)) && Replay(m, FlatSweep(base))[a] == 0
    {
      WritesToAppend(body, ClearRun(base, RegisterCount), a);
      ClearRunWrites(base, RegisterCount, a);
      LatchedIsLastWrite(m, FlatSweep(base), a);
    }
  }

  /** The filter passes store the mode byte to the volume register once per pass, in mode order. */
  lemma {:induction false} FilterPassesVolume(base: int, n: int)
    requires 0 <= n <= 4
    ensures var w := WritesTo(FilterPasses(base, n), base + Volume);
            |w| == n && forall k :: 0 <= k < n ==> w[k] == ModeVolume(k)
  {
    if n > 0 {
      FilterPassesVolume(base, n - 1);
      var a := base + Volume;
      var head := [Store(base + Voice1Control, 0x21), Store(base + FilterControl, 0x81),
                   Store(base + Volume, ModeVolume(n - 1))];
      var tail := [Store(base + Voice1Control, 0x20)];
      assert head == [head[0], head[1]] + [head[2]];
      NoStoreWritesNothing([head[0], head[1]], a);
      WritesToSnoc([head[0], head[1]], head[2], a);
      CutoffRunTouches(base, CutoffLimit, a);
      WritesToOne(tail[0], a);
      WritesToAppend(head, CutoffRun(base, CutoffLimit), a);
      WritesToAppend(head + CutoffRun(base, CutoffLimit), tail, a);
      WritesToAppend(FilterPasses(base, n - 1), FilterPass(base, n - 1), a);
    }
  }

  /** The resonance steps store only to the voice 1 control and filter control registers. */
  lemma ResonanceRunWrites(base: int, n: int, addr: int)
    requires 0 <= n <= ResonanceLevels
    requires addr != base + Voice1Control && addr != base + FilterControl
    ensures WritesTo(ResonanceRun(base, n), addr) == []
  {
    NoStoreWritesNothing(ResonanceRun(base, n), addr);
  }

  /**
   * The volume/mode register receives, in order: the clearing 0, `mode | $0F`
   * for low-pass, band-pass, high-pass and notch, $1F for the resonance demo,
   * and the final clearing 0.
   */
  lemma SweepVolumeWrites(base: int)
    ensures WritesTo(FlatSweep(base), base + Volume) == [0x00, 0x1F, 0x2F, 0x4F, 0x5F, 0x1F, 0x00]
  {
    FlatSweepIsPhases(base);
    PhasesVolumeWrites(base);
  }

  lemma PhasesVolumeWrites(base: int)
    ensures WritesTo(SweepPhases(base), base + Volume) == [0x00, 0x1F, 0x2F, 0x4F, 0x5F, 0x1F, 0x00]
  {
    var a := base + Volume;
    var clear := ClearRun(base, RegisterCount);
    assert WritesTo(clear, a) == [0x00] by {
      ClearRunWrites(base, RegisterCount, a);
    }
    assert WritesTo(VoiceSetup(base), a) == [] by {
      NoStoreWritesNothing(VoiceSetup(base), a);
    }
    assert WritesTo(FilterPasses(base, 4), a) == [0x1F, 0x2F, 0x4F, 0x5F] by {
      FourPassesVolume(base);
    }
    assert WritesTo(ResonanceSetup(base), a) == [0x1F] by {
      ResonanceSetupVolume(base);
    }
    assert WritesTo(ResonanceRun(base, ResonanceLevels), a) == [] by {
      ResonanceRunWrites(base, ResonanceLevels, a);
    }
    WritesToSix(clear, VoiceSetup(base), FilterPasses(base, 4), ResonanceSetup(base),
                ResonanceRun(base, ResonanceLevels), clear, a);
  }

  /** The writes to `addr` of six traces in a row. */
  lemma WritesToSix(t1: seq<Access>, t2: seq<Access>, t3: seq<Access>, t4: seq<Access>,
                    t5: seq<Access>, t6: seq<Access>, addr: int)
    ensures WritesTo(t1 + t2 + t3 + t4 + t5 + t6, addr)
            == WritesTo(t1, addr) + WritesTo(t2, addr) + WritesTo(t3, addr)
               + WritesTo(t4, addr) + WritesTo(t5, addr) + WritesTo(t6, addr)
  {
    WritesToAppend(t1, t2, addr);
    WritesToAppend(t1 + t2, t3, addr);
    WritesToAppend(t1 + t2 + t3, t4, addr);
    WritesToAppend(t1 + t2 + t3 + t4, t5, addr);
    WritesToAppend(t1 + t2 + t3 + t4 + t5, t6, addr);
  }

  /** The four filter passes store $1F, $2F, $4F and $5F to the volume register. */
  lemma FourPassesVolume(base: int)
    ensures WritesTo(FilterPasses(base, 4), base + Volume) == [0x1F, 0x2F, 0x4F, 0x5F]
  {
    FilterPassesVolume(base, 4);
  }

  /** The resonance demo's setup stores $1F to the volume register and nothing else there. */
  lemma ResonanceSetupVolume(base: int)
    ensures WritesTo(ResonanceSetup(base), base + Volume) == [0x1F]
  {
    var a := base + Volume;
    var setup := ResonanceSetup(base);
    assert setup == [setup[0], setup[1]] + [setup[2]];
    NoStoreWritesNothing([setup[0], setup[1]], a);
    WritesToSnoc([setup[0], setup[1]], setup[2], a);
  }

  /** Every value of `s` is at most `m`. */
  predicate AllAtMost(s: seq<byte>, m: int)
  {
    forall k :: 0 <= k < |s| ==> s[k] <= m
  }

  lemma AllAtMostAppend(a: seq<byte>, b: seq<byte>, m: int)
    ensures AllAtMost(a + b, m) <==> AllAtMost(a, m) && AllAtMost(b, m)
  {
    if AllAtMost(a, m) && AllAtMost(b, m) {
      forall k | 0 <= k < |a + b|
        ensures (a + b)[k] <= m
      {
        if k >= |a| {
          assert (a + b)[k] == b[k - |a|];
        }
      }
    }
    if AllAtMost(a + b, m) {
      forall k | 0 <= k < |a|
        ensures a[k] <= m
      {
        assert (a + b)[k] == a[k];
      }
      forall k | 0 <= k < |b|
        ensures b[k] <= m
      {
        assert (a + b)[|a| + k] == b[k];
      }
    }
  }

  /** Every value the sweep stores to the FC HI register is at most 7: only three of its bits are used. */
  lemma SweepCutoffHiBounded(base: int)
    ensures AllAtMost(WritesTo(FlatSweep(base), base + FilterCutoffHi), 7)
  {
    FlatSweepIsPhases(base);
    PhasesCutoffHiBounded(base);
  }

  lemma PhasesCutoffHiBounded(base: int)
    ensures AllAtMost(WritesTo(SweepPhases(base), base + FilterCutoffHi), 7)
  {
    var a := base + FilterCutoffHi;
    var clear := ClearRun(base, RegisterCount);
    WritesToSix(clear, VoiceSetup(base), FilterPasses(base, 4), ResonanceSetup(base),
                ResonanceRun(base, ResonanceLevels), clear, a);
    ClearRunWrites(base, RegisterCount, a);
    NoStoreWritesNothing(VoiceSetup(base), a);
    FilterPassesCutoffHi(base, 4);
    ResonanceSetupCutoffHi(base);
    ResonanceRunWrites(base, ResonanceLevels, a);
    var wc, wp, ws := WritesTo(clear, a), WritesTo(FilterPasses(base, 4), a), WritesTo(ResonanceSetup(base), a);
    AllAtMostAppend(wc, [], 7);
    AllAtMostAppend(wc + [], wp, 7);
    AllAtMostAppend(wc + [] + wp, ws, 7);
    AllAtMostAppend(wc + [] + wp + ws, [], 7);
    AllAtMostAppend(wc + [] + wp + ws + [], wc, 7);
  }

  /** The resonance demo's setup stores 2 to the FC HI register. */
  lemma ResonanceSetupCutoffHi(base: int)
    ensures WritesTo(ResonanceSetup(base), base + FilterCutoffHi) == [0x02]
  {
    var a := base + FilterCutoffHi;
    var setup := ResonanceSetup(base);
    assert setup == [setup[0]] + [setup[1]] + [setup[2]];
    WritesToOne(setup[0], a);
    WritesToSnoc([setup[0]], setup[1], a);
    WritesToSnoc([setup[0]] + [setup[1]], setup[2], a);
  }

  lemma {:induction false} FilterPassesCutoffHi(base: int, n: int)
    requires 0 <= n <= 4
    ensures AllAtMost(WritesTo(FilterPasses(base, n), base + FilterCutoffHi), 7)
  {
    if n > 0 {
      FilterPassesCutoffHi(base, n - 1);
      var a := base + FilterCutoffHi;
      var head := [Store(base + Voice1Control, 0x21), Store(base + FilterControl, 0x81),
                   Store(base + Volume, ModeVolume(n - 1))];
      var tail := [Store(base + Voice1Control, 0x20)];
      NoStoreWritesNothing(head, a);
      CutoffRunWrites(base, CutoffLimit);
      WritesToOne(tail[0], a);
      WritesToAppend(head, CutoffRun(base, CutoffLimit), a);
      WritesToAppend(head + CutoffRun(base, CutoffLimit), tail, a);
      WritesToAppend(FilterPasses(base, n - 1), FilterPass(base, n - 1), a);
      AllAtMostAppend(WritesTo(FilterPasses(base, n - 1), a), WritesTo(FilterPass(base, n - 1), a), 7);
    }
  }
}
