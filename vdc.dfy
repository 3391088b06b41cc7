/**
 * The VDC information screen: the register handshake through the VDC's two
 * ports, the RAM-size probe and the colour test bar.
 *
 * The VDC is reached through a control port ($D600) and a data port ($D601).
 * Writing a register number to the control port selects that register;
 * reading the control port gives the status byte, whose bit 7 says the chip
 * is ready; the data port then reads or writes the selected register.
 * Register 31 is the data register: it reads and writes the VDC's own RAM at
 * the address held in registers 18 (high byte) and 19 (low byte).
 *
 * The chip is simulated with the RAM it is fitted with: 16 KB of RAM only
 * decodes the low 14 address bits, so $9FFF and $1FFF are the same cell;
 * 64 KB decodes all 16. How many not-ready statuses the chip shows before it
 * is ready is hardware timing and is supplied as a `Wait` per handshake.
 */
module VdcInfo {
  import opened C128

  const MemoryModeReg := 28
  const HighAddrReg := 18
  const LowAddrReg := 19
  const DataReg := 31

  /** One CPU access to the VDC's ports. */
  datatype PortAccess =
    | SelectReg(reg: byte)         // write to the control port
    | StatusRead(status: byte)     // read of the control port
    | DataWrite(value: byte)       // write to the data port
    | DataRead(value: byte)        // read of the data port

  /** A register access as the C code sees it: one `vdc_write` or `vdc_read`. */
  datatype RegOp = RegWrite(reg: byte, value: byte) | RegRead(reg: byte, value: byte)

  /** The ready flag of a status byte, bit 7. */
  predicate Ready(status: byte)
  {
    status >= 0x80
  }

  /** The flag is the source's `VDC.ctrl & 0x80`. */
  lemma ReadyIsBit(status: byte)
    ensures Ready(status) <==> BitAnd(status, 0x80) != 0
  {
    AndSingleBit(status, 7);
    assert Pow2(7) == 128;
    assert Bit(status, 7) == status / 128;
  }

  /** The statuses one busy wait reads: some not ready, then a ready one. */
  datatype Wait = Wait(busy: seq<byte>, ready: byte)

  predicate ValidWait(w: Wait)
  {
    (forall k :: 0 <= k < |w.busy| ==> !Ready(w.busy[k])) && Ready(w.ready)
  }

  /** The status the k-th read of the control port answers during wait `w`. */
  function StatusAt(w: Wait, k: nat): byte
  {
    if k < |w.busy| then w.busy[k] else w.ready
  }

  function WaitReads(w: Wait): (t: seq<PortAccess>)
  {
    seq(|w.busy| + 1, k requires 0 <= k => StatusRead(StatusAt(w, k)))
  }

  /** The port accesses of one `vdc_write` or `vdc_read`: select, wait, then the data access. */
  function OpPorts(op: RegOp, w: Wait): seq<PortAccess>
  {
    [SelectReg(op.reg)] + WaitReads(w)
    + match op
      case RegWrite(_, v) => [DataWrite(v)]
      case RegRead(_, v) => [DataRead(v)]
  }

  /**
   * In every handshake the register is selected first and the data port is
   * touched only after a ready status, once, with the operation's value.
   */
  lemma HandshakeOrder(op: RegOp, w: Wait)
    requires ValidWait(w)
    ensures var t := OpPorts(op, w);
            && t[0] == SelectReg(op.reg)
            && (forall k :: 1 <= k < |t| - 1 ==> t[k].StatusRead?)
            && (forall k :: 1 <= k < |t| - 2 ==> !Ready(t[k].status))
            && t[|t| - 2] == StatusRead(w.ready) && Ready(w.ready)
            && t[|t| - 1] == (if op.RegWrite? then DataWrite(op.value) else DataRead(op.value))
            && (forall k :: 0 <= k < |t| - 1 ==> !t[k].DataWrite? && !t[k].DataRead?)
  {
    var t := OpPorts(op, w);
    assert |t| == |w.busy| + 3;
    forall k | 1 <= k < |t| - 1
      ensures t[k] == StatusRead(StatusAt(w, k - 1))
    {
    }
  }

  /** The VDC as seen through its ports. */
  class Vdc {
    /** 0x4000 for a 16 KB chip, 0x10000 for 64 KB. */
    const ramSize: int
    /** The register last selected through the control port. */
    var selected: byte
    /** R0 .. R255 as the data port reads and writes them; R31 is not stored here. */
    var regs: seq<byte>
    var ram: seq<byte>
    /** Every access made to the two ports. */
    var ports: seq<PortAccess>
    /** The register accesses made, one per `vdc_write` or `vdc_read`. */
    ghost var ops: seq<RegOp>

    ghost predicate Valid()
      reads this
    {
      (ramSize == 0x4000 || ramSize == 0x10000) && |regs| == 256 && |ram| == ramSize
    }

    /** The RAM cell registers 18 and 19 address: the chip decodes only as many address bits as its RAM has. */
    function Cell(): int
      reads this
      requires Valid()
      ensures 0 <= Cell() < |ram|
    {
      (regs[HighAddrReg] * 256 + regs[LowAddrReg]) % ramSize
    }

    constructor (ramSize: int, regs: seq<byte>, ram: seq<byte>)
      requires (ramSize == 0x4000 || ramSize == 0x10000) && |regs| == 256 && |ram| == ramSize
      ensures Valid()
      ensures this.ramSize == ramSize && this.regs == regs && this.ram == ram
      ensures selected == 0 && ports == [] && ops == []
    {
      this.ramSize := ramSize;
      this.regs := regs;
      this.ram := ram;
      selected := 0;
      ports := [];
      ops := [];
    }

    /** `VDC.ctrl = reg`. */
    method SelectRegister(reg: byte)
      requires Valid()
      modifies this
      ensures Valid()
      ensures selected == reg && ports == old(ports) + [SelectReg(reg)]
      ensures regs == old(regs) && ram == old(ram) && ops == old(ops)
    {
      selected := reg;
      ports := ports + [SelectReg(reg)];
    }

    /** A read of `VDC.ctrl`; `answer` is the status the chip shows. */
    method ReadStatus(answer: byte) returns (status: byte)
      requires Valid()
      modifies this
      ensures Valid()
      ensures status == answer && ports == old(ports) + [StatusRead(answer)]
      ensures selected == old(selected) && regs == old(regs) && ram == old(ram) && ops == old(ops)
    {
      status := answer;
      ports := ports + [StatusRead(answer)];
    }

    /** `VDC.data = value`: register 31 stores into RAM, any other register into itself. */
    method WriteData(value: byte)
      requires Valid()
      modifies this
      ensures Valid()
      ensures ports == old(ports) + [DataWrite(value)]
      ensures selected == DataReg ==> ram == old(ram)[old(Cell()) := value] && regs == old(regs)
      ensures selected != DataReg ==> regs == old(regs)[selected := value] && ram == old(ram)
      ensures selected == old(selected) && ops == old(ops)
    {
      if selected == DataReg {
        ram := ram[Cell() := value];
      } else {
        regs := regs[selected := value];
      }
      ports := ports + [DataWrite(value)];
    }

    /** A read of `VDC.data`. */
    method ReadData() returns (value: byte)
      requires Valid()
      modifies this
      ensures Valid()
      ensures value == if selected == DataReg then ram[Cell()] else regs[selected]
      ensures ports == old(ports) + [DataRead(value)]
      ensures selected == old(selected) && regs == old(regs) && ram == old(ram) && ops == old(ops)
    {
      value := if selected == DataReg then ram[Cell()] else regs[selected];
      ports := ports + [DataRead(value)];
    }

    /** `while (!(VDC.ctrl & 0x80));` with the chip answering the statuses of `w`. */
    method AwaitReady(w: Wait)
      requires Valid() && ValidWait(w)
      modifies this
      ensures Valid()
      ensures ports == old(ports) + WaitReads(w)
      ensures selected == old(selected) && regs == old(regs) && ram == old(ram) && ops == old(ops)
    {
      var k := 0;
      var status := ReadStatus(StatusAt(w, 0));
      while BitAnd(status, 0x80) == 0
        invariant Valid() && 0 <= k <= |w.busy| && status == StatusAt(w, k)
        invariant ports == old(ports) + seq(k + 1, j requires 0 <= j => StatusRead(StatusAt(w, j)))
        invariant selected == old(selected) && regs == old(regs) && ram == old(ram) && ops == old(ops)
        decreases |w.busy| - k
      {
        ReadyIsBit(status);
        k := k + 1;
        status := ReadStatus(StatusAt(w, k));
      }
      ReadyIsBit(status);
    }

    /** `vdc_write(reg, value)`. */
    method VdcWrite(reg: byte, value: byte, w: Wait)
      requires Valid() && ValidWait(w)
      modifies this
      ensures Valid()
      ensures ports == old(ports) + OpPorts(RegWrite(reg, value), w)
      ensures ops == old(ops) + [RegWrite(reg, value)]
      ensures selected == reg
      ensures reg == DataReg ==> ram == old(ram)[old(Cell()) := value] && regs == old(regs)
      ensures reg != DataReg ==> regs == old(regs)[reg := value] && ram == old(ram)
    {
      SelectRegister(reg);
      AwaitReady(w);
      WriteData(value);
      ops := ops + [RegWrite(reg, value)];
    }

    /** `vdc_read(reg)`. */
    method VdcRead(reg: byte, w: Wait) returns (value: byte)
      requires Valid() && ValidWait(w)
      modifies this
      ensures Valid()
      ensures value == if reg == DataReg then ram[Cell()] else regs[reg]
      ensures ports == old(ports) + OpPorts(RegRead(reg, value), w)
      ensures ops == old(ops) + [RegRead(reg, value)]
      ensures selected == reg && regs == old(regs) && ram == old(ram)
    {
      SelectRegister(reg);
      AwaitReady(w);
      value := ReadData();
      ops := ops + [RegRead(reg, value)];
    }
  }

  // ---------------------------------------------------------------------------
  // RAM-size probe

  /** The value of register 28 during the probe: `oldval | 0x10`. */
  function ForcedMode(oldval: byte): byte
  {
    BitOr(oldval, 0x10)
  }

  /** Forcing the mode sets bit 4 and keeps the seven other bits of the old value. */
  lemma ForcedModeBits(oldval: byte)
    ensures Bit(ForcedMode(oldval), 4) == 1
    ensures forall i :: 0 <= i < 8 && i != 4 ==> Bit(ForcedMode(oldval), i) == Bit(oldval, i)
  {
    forall i | 0 <= i < 8
      ensures Bit(ForcedMode(oldval), i) == if i == 4 then 1 else Bit(oldval, i)
    {
      ForcedModeBit(oldval, i);
    }
  }

  lemma ForcedModeBit(oldval: byte, i: nat)
    requires i < 8
    ensures Bit(ForcedMode(oldval), i) == if i == 4 then 1 else Bit(oldval, i)
  {
    ForcedModeIsOr(oldval);
    OrBit(oldval, 0x10, i);
    SixteenBit(i);
  }

  /** For a byte, the truncation to unsigned char in `oldval | 0x10` changes nothing. */
  lemma ForcedModeIsOr(oldval: byte)
    ensures ForcedMode(oldval) == Or(oldval, 0x10)
  {
    OrIntoZeroBitsBound(oldval);
  }

  /** The bits of $10: bit 4 alone. */
  lemma SixteenBit(i: nat)
    requires i < 8
    ensures Bit(0x10, i) == if i == 4 then 1 else 0
  {
    assert Pow2(0) == 1 && Pow2(1) == 2 && Pow2(2) == 4 && Pow2(3) == 8;
    assert Pow2(4) == 16 && Pow2(5) == 32 && Pow2(6) == 64 && Pow2(7) == 128;
  }

  /** `oldval | 0x10` of a byte is again a byte, so storing it loses nothing. */
  lemma OrIntoZeroBitsBound(oldval: byte)
    ensures Or(oldval, 0x10) < 256
  {
    OrBelow(oldval, 0x10, 8);
    assert Pow2(8) == 256;
  }

  /** Or-ing two values below `2^n` stays below `2^n`. */
  lemma {:induction false} OrBelow(a: nat, b: nat, n: nat)
    requires a < Pow2(n) && b < Pow2(n)
    ensures Or(a, b) < Pow2(n)
    decreases a + b
  {
    if a != 0 && b != 0 {
      assert n > 0;
      OrBelow(a / 2, b / 2, n - 1);
    }
  }

  /** The register accesses of the probe, in order: save and force register 28, $00 to $1FFF, $FF to $9FFF, read $1FFF, restore. */
  function ProbeOps(oldval: byte, result: byte): seq<RegOp>
  {
    [RegRead(MemoryModeReg, oldval), RegWrite(MemoryModeReg, ForcedMode(oldval)),
     RegWrite(HighAddrReg, 0x1F), RegWrite(LowAddrReg, 0xFF), RegWrite(DataReg, 0x00),
     RegWrite(HighAddrReg, 0x9F), RegWrite(LowAddrReg, 0xFF), RegWrite(DataReg, 0xFF),
     RegWrite(HighAddrReg, 0x1F), RegWrite(LowAddrReg, 0xFF), RegRead(DataReg, result),
     RegWrite(MemoryModeReg, oldval)]
  }

  /**
   * The port trace `p` continued by the probe's handshakes: the k-th
   * access of `ProbeOps` with the busy wait `waits[k]`.
   */
  function ProbePorts(p: seq<PortAccess>, oldval: byte, result: byte, waits: seq<Wait>): seq<PortAccess>
    requires |waits| == 12
  {
    p + OpPorts(RegRead(MemoryModeReg, oldval), waits[0])
      + OpPorts(RegWrite(MemoryModeReg, ForcedMode(oldval)), waits[1])
      + OpPorts(RegWrite(HighAddrReg, 0x1F), waits[2]) + OpPorts(RegWrite(LowAddrReg, 0xFF), waits[3])
      + OpPorts(RegWrite(DataReg, 0x00), waits[4])
      + OpPorts(RegWrite(HighAddrReg, 0x9F), waits[5]) + OpPorts(RegWrite(LowAddrReg, 0xFF), waits[6])
      + OpPorts(RegWrite(DataReg, 0xFF), waits[7])
      + OpPorts(RegWrite(HighAddrReg, 0x1F), waits[8]) + OpPorts(RegWrite(LowAddrReg, 0xFF), waits[9])
      + OpPorts(RegRead(DataReg, result), waits[10])
      + OpPorts(RegWrite(MemoryModeReg, oldval), waits[11])
  }

  /** The cell an address falls on in RAM of `ramSize` bytes. */
  function CellOf(addr: int, ramSize: int): int
    requires ramSize > 0
  {
    addr % ramSize
  }

  /** What the probe reads back at $1FFF: $FF when $9FFF falls on the same cell, else the $00 written there. */
  function ProbeReadback(ramSize: int): (v: byte)
    requires ramSize > 0
    ensures v == 0xFF <==> CellOf(0x9FFF, ramSize) == CellOf(0x1FFF, ramSize)
    ensures v == 0x00 <==> CellOf(0x9FFF, ramSize) != CellOf(0x1FFF, ramSize)
  {
    if CellOf(0x9FFF, ramSize) == CellOf(0x1FFF, ramSize) then 0xFF else 0x00
  }

  /** The size the screen reports: 64 KB only when $00 is read back, 16 KB for any other value. */
  function ReportedKb(result: byte): (kb: int)
    ensures kb == 64 <==> result == 0x00
    ensures kb == 16 <==> result != 0x00
  {
    if result == 0x00 then 64 else 16
  }

  /** A 16 KB chip aliases $9FFF onto $1FFF; a 64 KB chip keeps them apart. */
  lemma ProbeDistinguishesSizes()
    ensures ProbeReadback(0x4000) == 0xFF && ReportedKb(ProbeReadback(0x4000)) == 16
    ensures ProbeReadback(0x10000) == 0x00 && ReportedKb(ProbeReadback(0x10000)) == 64
  {
    assert CellOf(0x9FFF, 0x4000) == 0x1FFF == CellOf(0x1FFF, 0x4000);
    assert CellOf(0x9FFF, 0x10000) == 0x9FFF;
  }

  /** Reads register 28 and writes it back with bit 4 set. */
  method SaveAndForce(vdc: Vdc, w0: Wait, w1: Wait) returns (oldval: byte)
    requires vdc.Valid() && ValidWait(w0) && ValidWait(w1)
    modifies vdc
    ensures vdc.Valid()
    ensures oldval == old(vdc.regs[MemoryModeReg])
    ensures vdc.regs == old(vdc.regs)[MemoryModeReg := ForcedMode(oldval)] && vdc.ram == old(vdc.ram)
    ensures vdc.ops == old(vdc.ops) + [RegRead(MemoryModeReg, oldval)] + [RegWrite(MemoryModeReg, ForcedMode(oldval))]
    ensures vdc.ports == old(vdc.ports) + OpPorts(RegRead(MemoryModeReg, oldval), w0)
                         + OpPorts(RegWrite(MemoryModeReg, ForcedMode(oldval)), w1)
  {
    oldval := vdc.VdcRead(MemoryModeReg, w0);
    OrIntoZeroBitsBound(oldval);
    vdc.VdcWrite(MemoryModeReg, BitOr(oldval, 0x10), w1);
  }

  /** Writes `value` to the VDC RAM at address `hi`:$FF. */
  method WriteSentinel(vdc: Vdc, hi: byte, value: byte, wa: Wait, wb: Wait, wc: Wait)
    requires vdc.Valid() && ValidWait(wa) && ValidWait(wb) && ValidWait(wc)
    modifies vdc
    ensures vdc.Valid()
    ensures vdc.regs == old(vdc.regs)[HighAddrReg := hi][LowAddrReg := 0xFF]
    ensures vdc.ram == old(vdc.ram)[CellOf(hi * 256 + 0xFF, vdc.ramSize) := value]
    ensures vdc.ops == old(vdc.ops) + [RegWrite(HighAddrReg, hi)] + [RegWrite(LowAddrReg, 0xFF)] + [RegWrite(DataReg, value)]
    ensures vdc.ports == old(vdc.ports) + OpPorts(RegWrite(HighAddrReg, hi), wa)
                         + OpPorts(RegWrite(LowAddrReg, 0xFF), wb) + OpPorts(RegWrite(DataReg, value), wc)
  {
    vdc.VdcWrite(HighAddrReg, hi, wa);
    vdc.VdcWrite(LowAddrReg, 0xFF, wb);
    vdc.VdcWrite(DataReg, value, wc);
  }

  /** Addresses $1FFF and reads it. */
  method ReadBack(vdc: Vdc, wa: Wait, wb: Wait, wc: Wait) returns (result: byte)
    requires vdc.Valid() && ValidWait(wa) && ValidWait(wb) && ValidWait(wc)
    modifies vdc
    ensures vdc.Valid()
    ensures result == vdc.ram[CellOf(0x1FFF, vdc.ramSize)]
    ensures vdc.regs == old(vdc.regs)[HighAddrReg := 0x1F][LowAddrReg := 0xFF] && vdc.ram == old(vdc.ram)
    ensures vdc.ops == old(vdc.ops) + [RegWrite(HighAddrReg, 0x1F)] + [RegWrite(LowAddrReg, 0xFF)] + [RegRead(DataReg, result)]
    ensures vdc.ports == old(vdc.ports) + OpPorts(RegWrite(HighAddrReg, 0x1F), wa)
                         + OpPorts(RegWrite(LowAddrReg, 0xFF), wb) + OpPorts(RegRead(DataReg, result), wc)
  {
    vdc.VdcWrite(HighAddrReg, 0x1F, wa);
    vdc.VdcWrite(LowAddrReg, 0xFF, wb);
    result := vdc.VdcRead(DataReg, wc);
  }

  /**
   * The probe of `draw_vdc_info_screen`: save register 28, force it,
   * write $00 to $1FFF and $FF to $9FFF, read $1FFF back and restore
   * register 28. `waits` are the twelve handshakes' busy waits.
   */
  method ProbeVdcRam(vdc: Vdc, waits: seq<Wait>) returns (result: byte, kb: int)
    requires vdc.Valid()
    requires |waits| == 12 && forall j :: 0 <= j < 12 ==> ValidWait(waits[j])
    modifies vdc
    ensures vdc.Valid()
    ensures result == ProbeReadback(vdc.ramSize)
    ensures kb == ReportedKb(result)
    ensures kb == 16 <==> vdc.ramSize == 0x4000
    ensures vdc.ops == old(vdc.ops) + ProbeOps(old(vdc.regs[MemoryModeReg]), result)
    ensures vdc.ports == ProbePorts(old(vdc.ports), old(vdc.regs[MemoryModeReg]), result, waits)
    ensures vdc.regs == old(vdc.regs)[HighAddrReg := 0x1F][LowAddrReg := 0xFF]
    ensures vdc.regs[MemoryModeReg] == old(vdc.regs[MemoryModeReg])
    ensures vdc.ram == old(vdc.ram)[CellOf(0x1FFF, vdc.ramSize) := 0x00][CellOf(0x9FFF, vdc.ramSize) := 0xFF]
    ensures vdc.selected == MemoryModeReg
  {
    ghost var ops0 := vdc.ops;
    var oldval := SaveAndForce(vdc, waits[0], waits[1]);
    WriteSentinel(vdc, 0x1F, 0x00, waits[2], waits[3], waits[4]);
    WriteSentinel(vdc, 0x9F, 0xFF, waits[5], waits[6], waits[7]);
    result := ReadBack(vdc, waits[8], waits[9], waits[10]);
    vdc.VdcWrite(MemoryModeReg, oldval, waits[11]);
    kb := ReportedKb(result);
    ProbeDistinguishesSizes();
    ProbeOpsLog(ops0, oldval, result);
  }

  /** The probe's register accesses one at a time. */
  lemma ProbeOpsLog(ops0: seq<RegOp>, oldval: byte, result: byte)
    ensures ops0 + ProbeOps(oldval, result)
            == ops0 + [RegRead(MemoryModeReg, oldval)] + [RegWrite(MemoryModeReg, ForcedMode(oldval))]
               + [RegWrite(HighAddrReg, 0x1F)] + [RegWrite(LowAddrReg, 0xFF)] + [RegWrite(DataReg, 0x00)]
               + [RegWrite(HighAddrReg, 0x9F)] + [RegWrite(LowAddrReg, 0xFF)] + [RegWrite(DataReg, 0xFF)]
               + [RegWrite(HighAddrReg, 0x1F)] + [RegWrite(LowAddrReg, 0xFF)] + [RegRead(DataReg, result)]
               + [RegWrite(MemoryModeReg, oldval)]
  {
  }

  // ---------------------------------------------------------------------------
  // Colour test bar

  const ColorNames: seq<string> :=
    ["Black", "White", "Red", "Cyan", "Purple", "Green", "Blue", "Yellow",
     "Orange", "Brown", "LightRed", "Gray1", "Gray2", "LightGreen", "LightBlue", "Gray3"]

  /** The width the `%-10s` label takes. */
  const LabelWidth := 10

  /** One row of the bar: screen row, colour index, label, and the number of reverse-video cells. */
  datatype BarRow = BarRow(y: byte, color: int, name: string, cells: int)

  /**
   * The bar's rows. The loop bound `width - label_width - 1` is computed in
   * C's int, so a width below 10 gives no cells rather than a wrapped count.
   */
  function ColorBar(yOffset: byte, width: byte): (rows: seq<BarRow>)
  {
    seq(16, i requires 0 <= i < 16 =>
      BarRow((yOffset + i) % 256, i, ColorNames[i], if width >= LabelWidth then width - LabelWidth else 0))
  }

  /** Every colour name fits its 10-column label. */
  lemma NamesFitLabel()
    ensures forall i :: 0 <= i < 16 ==> |ColorNames[i]| <= LabelWidth
  {
  }

  /** Row i shows colour i under its own name, on row `y_offset + i`, and label plus bar fill the whole line. */
  lemma ColorBarLayout(yOffset: byte, width: byte)
    requires yOffset + 16 <= 256 && width >= LabelWidth
    ensures var rows := ColorBar(yOffset, width);
            |rows| == 16
            && forall i :: 0 <= i < 16 ==>
                 rows[i].y == yOffset + i && rows[i].color == i && rows[i].name == ColorNames[i]
                 && LabelWidth + rows[i].cells == width
  {
  }

  /** `draw_color_test_bar(y_offset, width)`. */
  method DrawColorTestBar(yOffset: byte, width: byte) returns (rows: seq<BarRow>)
    ensures rows == ColorBar(yOffset, width)
  {
    rows := [];
    var i := 0;
    while i < 16
      invariant 0 <= i <= 16
      invariant rows == ColorBar(yOffset, width)[..i]
    {
      var y := (yOffset + i) % 256;
      var j := 0;
      while j < width - LabelWidth
        invariant 0 <= j && (j <= width - LabelWidth || j == 0)
        decreases width - LabelWidth - j
      {
        j := j + 1;
      }
      rows := rows + [BarRow(y, i, ColorNames[i], j)];
      i := i + 1;
    }
  }

  /** The colours heading names the VDC on the 80-column screen and the VIC-II otherwise. */
  datatype Heading = VdcColors | VicColors

  function ColorsHeading(width: byte): (h: Heading)
    ensures h == VdcColors <==> width == 80
  {
    if width == 80 then VdcColors else VicColors
  }

  datatype VdcScreen = VdcScreen(titleColumn: int, kb: int, heading: Heading, bar: seq<BarRow>)

  /** `draw_vdc_info_screen(screen_width)`, without its text output. */
  method DrawVdcInfoScreen(vdc: Vdc, width: byte, waits: seq<Wait>) returns (screen: VdcScreen)
    requires vdc.Valid()
    requires |waits| == 12 && forall j :: 0 <= j < 12 ==> ValidWait(waits[j])
    modifies vdc
    ensures vdc.Valid()
    ensures screen.titleColumn == TitleColumn(width)
    ensures screen.kb == ReportedKb(ProbeReadback(vdc.ramSize))
    ensures screen.heading == ColorsHeading(width)
    ensures screen.bar == ColorBar(6, width)
    ensures vdc.ops == old(vdc.ops) + ProbeOps(old(vdc.regs[MemoryModeReg]), ProbeReadback(vdc.ramSize))
    ensures vdc.ports == ProbePorts(old(vdc.ports), old(vdc.regs[MemoryModeReg]), ProbeReadback(vdc.ramSize), waits)
    ensures vdc.regs == old(vdc.regs)[HighAddrReg := 0x1F][LowAddrReg := 0xFF]
    ensures vdc.regs[MemoryModeReg] == old(vdc.regs[MemoryModeReg])
    ensures vdc.ram == old(vdc.ram)[CellOf(0x1FFF, vdc.ramSize) := 0x00][CellOf(0x9FFF, vdc.ramSize) := 0xFF]
    ensures vdc.selected == MemoryModeReg
  {
    var result, kb := ProbeVdcRam(vdc, waits);
    var bar := DrawColorTestBar(6, width);
    screen := VdcScreen(TitleColumn(width), kb, ColorsHeading(width), bar);
  }
}
