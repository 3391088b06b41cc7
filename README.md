# Ultra-36 C128 menu program: a Dafny model of its hardware probes and menu loop

This project models the core of the Ultra-36 ROM switcher's menu program for
the Commodore 128:

- **SID information screen.** This covers:
  - the presence test on a SID's volume register;
  - classification of the chip as MOS 6581 or MOS 8580 from the largest of
    256 samples of oscillator 3;
  - the choice between a second SID at $DE00 and one at $DF00, and the comment
    line that follows from it;
  - the F1/F2/F8 key loop;
  - every store the filter-sweep demonstration makes.
- **VDC information screen.** This covers:
  - the `vdc_write`/`vdc_read` handshake with the 8563's ready flag;
  - the 16 KB / 64 KB RAM probe through register 28 and the sentinels at
    $1FFF and $9FFF;
  - the layout of the 16-row colour test bar.
- **ROM menu.** This covers:
  - detection of the screen width from the byte at $EE;
  - the cursor that Up and Down move and that stops at the ends;
  - the guard that redraws the list only when the cursor has moved;
  - the bank that Enter returns, and the 1-based label `main` prints for it.

Modules:
- `C128` (`c128.dfy`). Shared vocabulary:
  - bytes and keys;
  - the PEEK/POKE bus, a class whose `trace` records every access in order;
  - the value latched at each address, a view computed from that trace;
  - C's `&` and `|` on unsigned values;
  - the centred-title column.
- `SidInfo` (`sid.dfy`).
- `VdcInfo` (`vdc.dfy`). Holds the `Vdc` class:
  - its register file and RAM;
  - the selected register;
  - the port accesses and register operations made so far.
- `RomMenu` (`menu.dfy`).

The hardware's answers are inputs to the model:
- A SID position is described by a `SidResponse`: the volume register before
  the test, its value read back after $0F was written, and the 256 oscillator
  samples.
- Each VDC handshake is given a `Wait`: the not-ready statuses the chip shows,
  then the ready one.
- Keys are a finite sequence. When the sequence runs out, the program is still
  blocked in `cgetc`.

The model derives everything the C code decides from these inputs, and proves
the following:
- the latch state each probe leaves behind;
- the order of the handshake;
- the values the sweep stores;
- agreement between the redraws and the returned bank.

## Notes on the code

The model does what the C code does, including these points:
- **The absent path of `detect_sid_model` does not clear the chip.** When the
  presence test fails, the function returns at once. Its only stores are $0F
  and then the original value, both to the volume register. The 25 registers
  are cleared only on the present path.
- **A present chip whose oscillator never reaches $20 gives model 0.** The
  screen then reports it as "Not detected", the same as an absent chip.
- **Oscillator 3 is set up with frequency $2020 and control byte $31.** $31 is
  triangle and sawtooth with the gate on.
- **The menu title is placed as if it had 20 characters.** `mainmenu` puts
  "Ultra-36 ROM Menu", which has 17 characters, at column `(SCREENW - 20) / 2`
  (`TitleColumn`). On the 40-column screen it spans columns 10 to 26, with 10
  columns on its left and 13 on its right: 1.5 columns left of centre. The
  VDC screen's "VDC RAM Test Utility" has 20 characters and is centred.
- **The menu is one column of ROM names.** It lists the first `NUM_ROMS` of
  the seven names in `romNames`, one per row.
- **A colour-bar width below 10 draws no cells.** C's integer promotion makes
  `width - label_width - 1` an `int`. So the count does not wrap around as an
  unsigned char would.

## Model

| member | source | states |
|---|---|---|
| C128.Bus.Poke | src/sid_info_screen.c:20 | a store appends exactly one `Store(addr, value)` to the bus trace |
| C128.Bus.Peek | src/sid_info_screen.c:17 | a load returns what the hardware answers and appends exactly one `Load` to the trace |
| C128.LatchedIsLastWrite | src/sid_info_screen.c:20-24 | the value latched at an address is the last value stored there, or its earlier value when nothing was stored |
| C128.TitleColumn | src/vdc_info_screen.c:75 | the title column `(width - 20) / 2` fits in an unsigned char, centres the 20-character "VDC RAM Test Utility" to within one column, and is 10 on the 40-column screen and 30 on the 80-column screen |
| SidInfo.VolumeReadsBackIsMask | src/sid_info_screen.c:21-27 | the presence predicate is exactly `(readback & 0x0F) == 0x0F` |
| SidInfo.PresenceWrites | src/sid_info_screen.c:17-24 | the presence test stores $0F and then the original value to the volume register, and stores nothing anywhere else |
| SidInfo.IsSidPresent | src/sid_info_screen.c:12-28 | the result is true exactly when the four volume bits read back as written; the bus sees the peek, poke, peek, poke sequence |
| SidInfo.ClearRunWrites | src/sid_info_screen.c:44-46 | the clearing loop stores one 0 to each register at offsets 0 to 24 of the chip, and nothing outside them |
| SidInfo.ClearRegisters | src/sid_info_screen.c:44-46 | the loop appends the clearing stores, in increasing address order |
| SidInfo.SeqMax | src/sid_info_screen.c:66-69 | the running maximum, which starts at 0, bounds every sample and is either 0 or one of the samples |
| SidInfo.Classify | src/sid_info_screen.c:85-87 | 2 exactly when max >= $80; 1 exactly when $20 <= max < $80; 0 exactly when max < $20 |
| SidInfo.SidModel | src/sid_info_screen.c:31-88 | 0 when the presence test fails; otherwise 2 when some sample reaches $80, 1 when some sample reaches $20 and none reaches $80, and 0 when every sample is below $20 |
| SidInfo.ConstantOscillator | src/sid_info_screen.c:66-87 | a present chip whose oscillator always answers c is classified by c alone |
| SidInfo.SampleReads | src/sid_info_screen.c:66-67 | the k-th access of the sampling loop is the load of OSC3 that answered sample k |
| SidInfo.DetectAbsentWrites | src/sid_info_screen.c:17-38 | on the absent path the only stores are the two presence-test stores, both to the volume register |
| SidInfo.DetectAbsentLatches | src/sid_info_screen.c:17-38 | on the absent path the volume register is left holding its original value, and every other address keeps its latch |
| SidInfo.DetectPresentLatches | src/sid_info_screen.c:41-80 | on the present path all 25 registers end at 0 and $D011 ends at $1B; every other address keeps its latch |
| SidInfo.TeardownWrites | src/sid_info_screen.c:72-80 | the teardown's last store to each chip register is 0, and its last store to $D011 is $1B |
| SidInfo.DetectPresentWritesOutside | src/sid_info_screen.c:41-80 | on the present path, outside the chip and $D011, nothing is stored |
| SidInfo.SetupWritesOutside | src/sid_info_screen.c:41-58 | the sampling setup stores only to the chip and to $D011 |
| SidInfo.TeardownWritesOutside | src/sid_info_screen.c:72-80 | the sampling teardown stores only to the chip and to $D011 |
| SidInfo.DetectSidModel | src/sid_info_screen.c:31-88 | returns `SidModel` of the chip's answers and makes exactly the accesses of `detect_sid_model`; states the latches left on both paths, as in the two Latches lemmas |
| SidInfo.MeasureModel | src/sid_info_screen.c:41-87 | the sampling half classifies the maximum of the 256 samples: setup, reads, then teardown |
| SidInfo.StartSampling | src/sid_info_screen.c:41-58 | blanks the screen, clears the chip and starts oscillator 3 |
| SidInfo.SampleOsc3 | src/sid_info_screen.c:66-69 | the sampling loop returns the maximum of the samples and makes one OSC3 load per sample |
| SidInfo.StopSampling | src/sid_info_screen.c:72-80 | stops voice 3, clears the chip and restores $D011 |
| SidInfo.ChooseSecondSid | src/sid_info_screen.c:218-234 | $DE00 is reported exactly when a chip is detected there (model code 1 or 2); $DF00 exactly when nothing is detected at $DE00 (code 0) and a chip is detected at $DF00; address 0 exactly when nothing is detected at either; the model code is that of the chosen position |
| SidInfo.ChooseComment | src/sid_info_screen.c:236-245 | no comment exactly when nothing is detected as SID 1 (code 0); "naughty" exactly when two different models are detected (codes 1 and 2); otherwise the personality line of SID 1's model |
| SidInfo.DetectSids | src/sid_info_screen.c:213-245 | probes $D400 and then $DE00, and probes $DF00 exactly when nothing is detected at $DE00 (code 0), whether or not the presence test passed there; reports the model codes, the second SID and the comment as the choice functions say |
| SidInfo.SidKeyAction | src/sid_info_screen.c:254-265 | leave exactly on F8; a sweep only for F1 when SID 1 is detected (model code 1 or 2), at $D400, or for F2 when a second SID is detected, at its address ($DE00 or $DF00); every other key is ignored |
| SidInfo.HandleSidKey | src/sid_info_screen.c:254-265 | handles one key: leaves exactly on F8, and makes exactly the accesses of its action |
| SidInfo.SidScreenKey | src/sid_info_screen.c:253-266 | one turn of the key loop moves the loop's trace on by one key, or ends it on F8 |
| SidInfo.SidScreenKeys | src/sid_info_screen.c:253-266 | the loop leaves exactly when some key is F8; the bus sees the sweeps of the keys up to that F8 |
| SidInfo.DrawSidInfoScreen | src/sid_info_screen.c:195-267 | the whole screen: detection report, its bus accesses, then the key loop's |
| SidInfo.ModeVolumeIsOr | src/sid_info_screen.c:121 | the mode/volume byte is `filter_modes[filter_type] \| 0x0F` |
| SidInfo.CutoffBytesAreMasks | src/sid_info_screen.c:125-126 | FC LO is `cutoff & 0xFF`; FC HI is `(cutoff >> 8) & 0x07` |
| SidInfo.CutoffEncoding | src/sid_info_screen.c:124-126 | below 2048, FC HI is at most 7 and `FC HI * 256 + FC LO` is the cutoff |
| SidInfo.CutoffRunTouches | src/sid_info_screen.c:124-132 | the cutoff loop stores to the two cutoff registers only |
| SidInfo.CutoffRunWrites | src/sid_info_screen.c:124-132 | the j-th stores to FC LO and FC HI are the bytes of cutoff 8j |
| SidInfo.CutoffLoWrites | src/sid_info_screen.c:125 | the FC LO values of the first n cutoff steps |
| SidInfo.CutoffHiWrites | src/sid_info_screen.c:126 | the FC HI values of the first n cutoff steps |
| SidInfo.CutoffRunEncodes | src/sid_info_screen.c:124-132 | the loop stores c/8 pairs; pair k encodes cutoff 8k, and its high byte is at most 7 |
| SidInfo.SweepCutoff | src/sid_info_screen.c:124-132 | the cutoff loop stores FC LO and FC HI for cutoffs 0, 8, ..., 2040 |
| SidInfo.PokeCutoff | src/sid_info_screen.c:125-126 | one cutoff step extends the loop's trace by its two stores |
| SidInfo.StartFilterPass | src/sid_info_screen.c:117-121 | gate on, $81 to the filter control, mode/volume byte to the volume register |
| SidInfo.PlayFilterPass | src/sid_info_screen.c:116-135 | one filter pass: opening stores, cutoff loop, gate off |
| SidInfo.PlayFilterPasses | src/sid_info_screen.c:111-141 | the four filter passes, in mode order |
| SidInfo.StartSweep | src/sid_info_screen.c:97-108 | clears the chip and sets up voice 1 |
| SidInfo.StartResonance | src/sid_info_screen.c:148-150 | cutoff $200 and low-pass mode at full volume |
| SidInfo.ResonanceControlIsOr | src/sid_info_screen.c:155 | the filter control byte of step i is `(i << 4) \| 0x01` |
| SidInfo.PokeResonance | src/sid_info_screen.c:154-162 | one resonance step: gate on, resonance and routing, gate off |
| SidInfo.PlayResonanceSteps | src/sid_info_screen.c:153-168 | the 16 resonance steps, in order |
| SidInfo.ResonanceRunWrites | src/sid_info_screen.c:153-168 | the resonance steps store only to the voice 1 control and filter control registers |
| SidInfo.PlayFilterSweep | src/sid_info_screen.c:91-177 | makes exactly the sweep's stores, and leaves all 25 registers of the chip at 0 |
| SidInfo.SweepEndsSilent | src/sid_info_screen.c:170-173 | from any earlier latch state, the sweep leaves registers 0 to 24 at 0 |
| SidInfo.FilterPassesVolume | src/sid_info_screen.c:111-121 | the filter passes store the mode byte of pass k to the volume register, once per pass |
| SidInfo.FourPassesVolume | src/sid_info_screen.c:111-121 | the four passes store $1F, $2F, $4F and $5F to the volume register |
| SidInfo.ResonanceSetupVolume | src/sid_info_screen.c:148-150 | the resonance setup stores $1F to the volume register |
| SidInfo.SweepVolumeWrites | src/sid_info_screen.c:91-177 | over the whole sweep, the volume register receives exactly $00, $1F, $2F, $4F, $5F, $1F, $00 |
| SidInfo.ResonanceSetupCutoffHi | src/sid_info_screen.c:148-149 | the resonance setup stores 2 to FC HI |
| SidInfo.FilterPassesCutoffHi | src/sid_info_screen.c:111-132 | every FC HI value of the filter passes is at most 7 |
| SidInfo.SweepCutoffHiBounded | src/sid_info_screen.c:91-177 | every value the sweep stores to FC HI is at most 7, which keeps it within the register's three bits |
| VdcInfo.ReadyIsBit | src/vdc_info_screen.c:24 | the ready predicate is `VDC.ctrl & 0x80` being non-zero |
| VdcInfo.HandshakeOrder | src/vdc_info_screen.c:22-33 | each handshake first selects the register, then reads not-ready statuses and ends on a ready one; the data port is touched only last, once, writing or reading the operation's value |
| VdcInfo.Vdc.Cell | src/vdc_info_screen.c:17-19 | the RAM cell that registers 18 and 19 address lies inside the chip's RAM |
| VdcInfo.Vdc.SelectRegister | src/vdc_info_screen.c:23 | the write to the control port selects the register, and changes nothing else |
| VdcInfo.Vdc.ReadStatus | src/vdc_info_screen.c:24 | a status read returns the chip's answer, and changes nothing else |
| VdcInfo.Vdc.AwaitReady | src/vdc_info_screen.c:24 | the busy wait reads the statuses of its wait, and changes nothing else |
| VdcInfo.Vdc.WriteData | src/vdc_info_screen.c:25 | a data write through register 31 stores into the addressed RAM cell; through any other register it stores into that register |
| VdcInfo.Vdc.ReadData | src/vdc_info_screen.c:32 | a data read returns the addressed RAM cell for register 31, and the selected register otherwise |
| VdcInfo.Vdc.VdcWrite | src/vdc_info_screen.c:22-26 | `vdc_write`: the handshake's port accesses, then the store to the register or to RAM |
| VdcInfo.Vdc.VdcRead | src/vdc_info_screen.c:29-33 | `vdc_read`: the handshake's port accesses; the value is the register, or the RAM cell for register 31 |
| VdcInfo.ForcedModeIsOr | src/vdc_info_screen.c:81 | the forced mode byte is `oldval \| 0x10`, which a byte holds without truncation |
| VdcInfo.ForcedModeBits | src/vdc_info_screen.c:81 | forcing the mode sets bit 4 and keeps the other seven bits |
| VdcInfo.ProbeReadback | src/vdc_info_screen.c:83-96 | $FF is read back exactly when $9FFF falls on the same cell as $1FFF; otherwise $00 |
| VdcInfo.ReportedKb | src/vdc_info_screen.c:103-107 | 64 KB exactly when $00 is read back; 16 KB for any other value |
| VdcInfo.ProbeDistinguishesSizes | src/vdc_info_screen.c:83-107 | a 16 KB chip reads back $FF and is reported as 16 KB; a 64 KB chip reads back $00 and is reported as 64 KB |
| VdcInfo.SaveAndForce | src/vdc_info_screen.c:77-81 | returns register 28 and writes it back with bit 4 set |
| VdcInfo.WriteSentinel | src/vdc_info_screen.c:83-91 | addresses hi:$FF and stores the value into the RAM cell of that address |
| VdcInfo.ReadBack | src/vdc_info_screen.c:93-96 | addresses $1FFF and returns its RAM cell |
| VdcInfo.ProbeVdcRam | src/vdc_info_screen.c:77-107 | the probe reads back `ProbeReadback` of the RAM size, and reports 16 KB exactly when the RAM is 16 KB; it makes the twelve register operations and their handshakes in order, restores register 28, leaves registers 18/19 at $1F:$FF and register 28 selected, and states the two RAM cells it changed |
| VdcInfo.NamesFitLabel | src/vdc_info_screen.c:37-53 | every colour name fits the 10-column `%-10s` label |
| VdcInfo.ColorBarLayout | src/vdc_info_screen.c:47-61 | row i is on screen row y_offset + i and shows colour i under its own name; label and cells fill the line's width |
| VdcInfo.DrawColorTestBar | src/vdc_info_screen.c:36-64 | the loops produce the bar's 16 rows, with `width - 10` cells each (0 below width 10) |
| VdcInfo.ColorsHeading | src/vdc_info_screen.c:109-113 | the heading names the VDC exactly when the width is 80 |
| VdcInfo.DrawVdcInfoScreen | src/vdc_info_screen.c:67-116 | title column, reported RAM size, heading and colour bar; the whole new VDC state of the probe: register operations, port accesses, registers 18/19, the two RAM cells, register 28 restored and selected |
| RomMenu.ScreenWidth | src/main.c:17-22 | 80 columns exactly when $EE holds 79; otherwise 40 |
| RomMenu.MoveCursor | src/main.c:82-88 | Up and Down move one line and stop at the ends; any other key leaves the cursor; the cursor stays in range |
| RomMenu.ExactlyOneHighlighted | src/main.c:62-76 | a redraw highlights exactly one line, the selected one |
| RomMenu.MenuLinesLayout | src/main.c:62-76 | line i is on row i + 3 and numbered i + 1; on the 40- and 80-column screens it clears all but four columns |
| RomMenu.DrawMenuLines | src/main.c:62-76 | the redraw loop produces the menu's lines |
| RomMenu.Choice | src/main.c:60-92 | a chosen bank is in range, and there is one exactly when Enter occurs among the keys |
| RomMenu.RedrawsShape | src/main.c:60-78 | redraws are of cursors in range; the first redraw differs from what was drawn before; no two consecutive redraws are of the same cursor |
| RomMenu.FirstPassDraws | src/main.c:42-43 | with previous = -1, the first pass draws, and it draws bank 0 |
| RomMenu.ChoiceIsOnScreen | src/main.c:60-92 | the bank Enter returns is the one highlighted by the last redraw |
| RomMenu.IgnoredKey | src/main.c:80-91 | a key other than Up, Down or Enter causes no redraw and does not change the outcome |
| RomMenu.RedrawGuard | src/main.c:61-78 | a cursor that differs from the one last drawn is drawn once, after which the two agree |
| RomMenu.MenuStep | src/main.c:80-91 | Enter returns the cursor; any other key moves on to the state after `MoveCursor` |
| RomMenu.ApplyKey | src/main.c:82-91 | the `switch` reports Enter exactly for Return, and moves the cursor as `MoveCursor` says |
| RomMenu.MainMenu | src/main.c:37-93 | `mainmenu`: its title column, one frame per redraw that `Redraws` gives, and the chosen bank |
| RomMenu.BankLabel | src/main.c:29 | the printed bank number is the chosen index plus one, between 1 and n |
| RomMenu.RunMenuProgram | src/main.c:13-35 | width from $EE; a bank label exactly when Enter is pressed, equal to the chosen bank plus one |

## Left out

- Screen output is not modelled: `clrscr`, `gotoxy`, `cputs`, `cprintf`, `cclear`, the colours and reverse video, and the title and sub-title bars. The model keeps only the numbers the screen derives: the title column, the menu lines, the colour-bar rows and the report.
- The empty delay loops in the detection and the sweep are left out. They make no access and compute nothing.
- `cgetc` blocks until a key arrives. The model gives the keys as a finite sequence, so a run that never sees Enter or F8 ends the sequence still waiting.
- The final "Press any key" wait in `main` is left out.
- `set_c128_speed` is not modelled. It is a call into the accelerator library.
- The SID's analog behaviour is not modelled. What the volume register reads back and what oscillator 3 outputs are inputs.
- The VDC busy wait is modelled as a finite run of polls that ends on a ready status. A chip that never becomes ready, which would hang the loop forever, is not modelled.
- The 8563 moves its update address in registers 18 and 19 on by one after every read or write of register 31. This auto-increment is not modelled: `WriteData`, `ReadData`, and hence the final `regs` of `ProbeVdcRam` and `DrawVdcInfoScreen`, leave registers 18 and 19 as last written. The probe's readback and the restore of register 28 do not depend on it, since the code reloads both address registers before each register 31 access.
- How the VDC decodes addresses is modelled as "address modulo the RAM size" for 16 KB and 64 KB chips. The effect of register 28's bit 4 on that decoding is not modelled.
- `base + offset` is an unbounded integer. The 6502's 16-bit address wrap is not modelled, since the bases used ($D400, $DE00, $DF00) never wrap.
- The number of ROM banks is a build setting. It is a parameter between 1 and the seven names `romNames` holds, and the names themselves are not modelled.
- SidInfo.SweepCutoff: it stores `CutoffLo(cutoff)` and `CutoffHi(cutoff)`, the arithmetic forms. `CutoffBytesAreMasks` proves these equal the source's `cutoff & 0xFF` and `(cutoff >> 8) & 0x07`.
- The JiffyDOS list, the strobe line and the other screens of the firmware are outside the modelled files.
