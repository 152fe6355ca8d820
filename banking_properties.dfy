/** Properties of the banking engine's specification: ROM windows, the MBC1 bank
    registers and mode toggle, the other mappers' bank selects, RAM-window faults
    and the MBC3 clock window. */
module BankingProperties {
  import opened Wrappers
  import opened Bytes
  import opened Header
  import opened Rtc
  import opened Banking

  // ---------------------------------------------------------------- ROM windows

  /** Every mapper reads 0x0000-0x3FFF straight from the ROM image, whatever the registers say. */
  lemma FixedRomWindow(id: Identity, r: BankRegs, addr: int)
    requires Consistent(id) && Aligned(addr) && addr < 0x4000
    ensures ReadSource(id, r, addr) == FromRom(addr)
  {
  }

  /** Through a mapper, 0x4000-0x7FFF reads zeros exactly when the selected bank is past
      the end of the ROM, and otherwise the selected bank at the same offset. */
  lemma BankedRomWindow(id: Identity, r: BankRegs, addr: int)
    requires Consistent(id) && Aligned(addr) && 0x4000 <= addr < 0x8000 && id.kind != NoMbc
    ensures ReadSource(id, r, addr) == ZeroFill <==> r.romBank as int >= id.numRomBanks
    ensures r.romBank as int < id.numRomBanks ==>
      ReadSource(id, r, addr) == FromRom(addr - 0x4000 + r.romBank as int * 0x4000)
  {
    assert 2 <= Window(addr) <= 3;
    assert ReadSource(id, r, addr) == RomRead(id, r, addr);
  }

  /** Without a mapper the whole 0x0000-0x7FFF range is the flat ROM image. */
  lemma FlatRomWithoutMapper(id: Identity, r: BankRegs, addr: int)
    requires Consistent(id) && Aligned(addr) && addr < 0x8000 && id.kind == NoMbc
    ensures ReadSource(id, r, addr) == FromRom(addr)
  {
  }

  /** A read of a ROM window delivers the ROM bytes and leaves the clock alone. */
  lemma {:induction false} RomReadDelivers(id: Identity, r: BankRegs, rom: seq<bv8>, ram: seq<bv8>,
                                           rtc: RtcState, addr: int, now: int, prev: seq<bv8>)
    requires Consistent(id) && Aligned(addr) && addr < 0x4000 && WellFormed(rtc) && |prev| == BlockSize
    requires |rom| == 0x4000 * id.numRomBanks
    ensures Block(ReadSource(id, r, addr), rom, ram, rtc, prev) == rom[addr..addr + BlockSize]
    ensures RtcAfterRead(id, r, rtc, addr, now) == rtc
  {
    FixedRomWindow(id, r, addr);
  }

  // ---------------------------------------------------------------- MBC1

  /** A write to 0x2000-0x3FFF sets the low five bits to those of the data, or to 1
      when they are 0, keeps bits 5 and 6 and clears the rest. */
  lemma Mbc1RomSelect(r: BankRegs, addr: int, b: bv8)
    requires Aligned(addr) && 0x2000 <= addr < 0x4000
    ensures var s := Mbc1Write(r, Window(addr), b);
      s.romBank & 0x1F == (if b & 0x1F == 0 then 1 else (b & 0x1F) as bv16) &&
      s.romBank & 0x60 == r.romBank & 0x60 &&
      s.romBank & 0xFF80 == 0 &&
      s.ramBank == r.ramBank && s.ramEnable == r.ramEnable && s.mbc1RamMode == r.mbc1RamMode
  {
  }

  /** The quirk on concrete values: 0x00, 0x20, 0x40 and 0x60 select 0x01, 0x21, 0x41, 0x61. */
  lemma Mbc1QuirkExamples(r: BankRegs)
    ensures Mbc1Write(r.(romBank := 0x00), 1, 0x00).romBank == 0x01
    ensures Mbc1Write(r.(romBank := 0x20), 1, 0x00).romBank == 0x21
    ensures Mbc1Write(r.(romBank := 0x40), 1, 0x00).romBank == 0x41
    ensures Mbc1Write(r.(romBank := 0x60), 1, 0x00).romBank == 0x61
    ensures Mbc1Write(r.(romBank := 0x01), 1, 0x05).romBank == 0x05
  {
  }

  /** The MBC1 register invariant that every reachable state keeps. */
  predicate Mbc1Inv(r: BankRegs)
  {
    r.romBank <= 0x7F && r.romBank & 0x1F != 0 &&
    r.ramBank <= 3 &&
    (!r.mbc1RamMode ==> r.ramBank == 0) &&
    (r.mbc1RamMode ==> r.romBank <= 0x1F)
  }

  lemma Mbc1InvReset()
    ensures Mbc1Inv(Reset)
  {
  }

  lemma Mbc1WritePreservesInv(r: BankRegs, w: int, b: bv8)
    requires Mbc1Inv(r)
    ensures Mbc1Inv(Mbc1Write(r, w, b))
  {
    if w == 1 {
      Mbc1RomLowKeepsInv(r, b);
    } else if w == 2 {
      Mbc1UpperKeepsInv(r, b);
    } else if w == 3 {
      Mbc1ModeKeepsInv(r, b);
    }
  }

  lemma Mbc1RomLowKeepsInv(r: BankRegs, b: bv8)
    requires Mbc1Inv(r)
    ensures Mbc1Inv(Mbc1Write(r, 1, b))
  {
  }

  lemma Mbc1UpperKeepsInv(r: BankRegs, b: bv8)
    requires Mbc1Inv(r)
    ensures Mbc1Inv(Mbc1Write(r, 2, b))
  {
  }

  lemma Mbc1ModeKeepsInv(r: BankRegs, b: bv8)
    requires Mbc1Inv(r)
    ensures Mbc1Inv(Mbc1Write(r, 3, b))
  {
  }

  /** A sequence of bus writes, each an address and its first data byte. */
  function ApplyWrites(id: Identity, r: BankRegs, ws: seq<(int, bv8)>): BankRegs
    requires forall i :: 0 <= i < |ws| ==> Aligned(ws[i].0)
    decreases |ws|
  {
    if ws == [] then r else ApplyWrites(id, NextRegs(id, r, ws[0].0, ws[0].1), ws[1..])
  }

  /** From the load reset, any sequence of writes to an MBC1 cart keeps the invariant:
      the ROM bank is at most 0x7F and never has zero low bits, the RAM bank is at most
      3, it is 0 outside RAM-banking mode, and in that mode the ROM bank is at most 0x1F. */
  lemma {:induction false} Mbc1Reachable(id: Identity, r: BankRegs, ws: seq<(int, bv8)>)
    requires id.kind == Mbc1 && Mbc1Inv(r)
    requires forall i :: 0 <= i < |ws| ==> Aligned(ws[i].0)
    ensures Mbc1Inv(ApplyWrites(id, r, ws))
    decreases |ws|
  {
    if ws != [] {
      Mbc1WritePreservesInv(r, Window(ws[0].0), ws[0].1);
      Mbc1Reachable(id, NextRegs(id, r, ws[0].0, ws[0].1), ws[1..]);
    }
  }

  /** Entering RAM-banking mode moves ROM bits 5 and 6 into the RAM bank. */
  lemma Mbc1EnterRamMode(r: BankRegs, b: bv8)
    requires !r.mbc1RamMode && b & 0x01 == 0x01
    ensures var s := Mbc1Write(r, 3, b);
      s.mbc1RamMode && s.ramBank == r.romBank >> 5 && s.romBank == r.romBank & 0x1F &&
      s.ramEnable == r.ramEnable
  {
  }

  /** Leaving it moves the RAM bank back into ROM bits 5 and 6 and selects RAM bank 0. */
  lemma Mbc1LeaveRamMode(r: BankRegs, b: bv8)
    requires r.mbc1RamMode && b & 0x01 == 0x00
    ensures var s := Mbc1Write(r, 3, b);
      !s.mbc1RamMode && s.romBank == (r.romBank & 0x1F) | (r.ramBank << 5) && s.ramBank == 0 &&
      s.ramEnable == r.ramEnable
  {
  }

  /** Toggling into RAM-banking mode and back restores the ROM bank and clears the RAM bank. */
  lemma Mbc1ToggleRoundTrip(r: BankRegs)
    requires !r.mbc1RamMode && r.romBank <= 0x7F
    ensures Mbc1Write(Mbc1Write(r, 3, 0x01), 3, 0x00) == r.(ramBank := 0)
  {
  }

  /** Writing the mode already in force changes nothing. */
  lemma Mbc1SameModeNoChange(r: BankRegs, b: bv8)
    requires r.mbc1RamMode == (b & 0x01 == 0x01)
    ensures Mbc1Write(r, 3, b) == r
  {
  }

  /** In ROM-banking mode, 0x4000-0x5FFF sets ROM bits 5 and 6; in RAM-banking mode it
      sets the RAM bank. */
  lemma Mbc1UpperBits(r: BankRegs, b: bv8)
    ensures var s := Mbc1Write(r, 2, b);
      if r.mbc1RamMode then s == r.(ramBank := (b & 0x03) as bv16)
      else s.romBank >> 5 == (b & 0x03) as bv16 && s.romBank & 0x1F == r.romBank & 0x1F && s.ramBank == r.ramBank
  {
  }

  // ---------------------------------------------------------------- other mappers

  /** MBC2 selects ROM bank `data & 0x0F`, 0 forced to 1. */
  lemma Mbc2RomSelect(id: Identity, r: BankRegs, b: bv8)
    ensures var s := Mbc2Write(id, r, 1, b);
      s.romBank == (if b & 0x0F == 0 then 1 else (b & 0x0F) as bv16) &&
      1 <= s.romBank <= 0x0F && s.ramBank == r.ramBank
  {
  }

  /** MBC3 selects ROM bank `data & 0x7F`, 0 forced to 1. */
  lemma Mbc3RomSelect(id: Identity, r: BankRegs, b: bv8)
    ensures var s := Mbc3Write(id, r, 1, b);
      s.romBank == (if b & 0x7F == 0 then 1 else (b & 0x7F) as bv16) &&
      1 <= s.romBank <= 0x7F && s.ramBank == r.ramBank
  {
  }

  /** Neither MBC2 nor MBC3 can ever select ROM bank 0 from the load reset. */
  lemma {:induction false} NeverBankZero(id: Identity, r: BankRegs, ws: seq<(int, bv8)>)
    requires id.kind == Mbc2 || id.kind == Mbc3
    requires r.romBank != 0
    requires forall i :: 0 <= i < |ws| ==> Aligned(ws[i].0)
    ensures ApplyWrites(id, r, ws).romBank != 0
    decreases |ws|
  {
    if ws != [] {
      NeverBankZero(id, NextRegs(id, r, ws[0].0, ws[0].1), ws[1..]);
    }
  }

  /** MBC5 decodes by 4 KB window: 0x2000-0x2FFF replaces the low 8 bits of the ROM bank,
      0x3000-0x3FFF replaces bit 8, keeping the other part. */
  lemma Mbc5RomSelect(id: Identity, r: BankRegs, b: bv8)
    requires r.romBank <= 0x1FF
    ensures var lo := Mbc5Write(id, r, 2, b);
      lo.romBank & 0xFF == b as bv16 && lo.romBank & 0xFF00 == r.romBank & 0xFF00 && lo.romBank <= 0x1FF
    ensures var hi := Mbc5Write(id, r, 3, b);
      hi.romBank >> 8 == (b & 0x01) as bv16 && hi.romBank & 0xFF == r.romBank & 0xFF
  {
    Mbc5RomLowWrite(id, r, b);
    Mbc5LowBits(r.romBank, b);
    Mbc5HighBit(id, r, b);
  }

  lemma Mbc5LowBits(bank: bv16, b: bv8)
    requires bank <= 0x1FF
    ensures var n := (bank & 0xFF00) | b as bv16;
      n & 0xFF == b as bv16 && n & 0xFF00 == bank & 0xFF00 && n <= 0x1FF
  {
  }

  lemma Mbc5HighBit(id: Identity, r: BankRegs, b: bv8)
    ensures var hi := Mbc5Write(id, r, 3, b);
      hi.romBank >> 8 == (b & 0x01) as bv16 && hi.romBank & 0xFF == r.romBank & 0xFF
  {
  }

  /** MBC5 can select bank 0 in the switchable window. */
  lemma Mbc5BankZeroSelectable(id: Identity)
    requires id.kind == Mbc5
    ensures NextRegs(id, Reset, 0x2000, 0x00).romBank == 0
  {
  }

  /** From the reset with 16 banks: 0x05 to 0x2000 then 0x00 to 0x3000 selects bank 5,
      and a read of 0x4000 returns ROM bytes 0x14000 to 0x14020. */
  lemma Mbc5Scenario(id: Identity)
    requires Consistent(id) && id.kind == Mbc5 && id.numRomBanks == 16
    ensures var r := NextRegs(id, NextRegs(id, Reset, 0x2000, 0x05), 0x3000, 0x00);
      r.romBank == 5 && ReadSource(id, r, 0x4000) == FromRom(0x14000)
  {
  }

  // ---------------------------------------------------------------- RAM window faults

  /** MBC1, MBC3 (off the clock registers) and MBC5 read zeros from the RAM window when
      there is no RAM or the RAM bank is past the last one. */
  lemma RamFaultsReadZero(id: Identity, r: BankRegs, addr: int)
    requires Consistent(id) && Aligned(addr) && Window(addr) == 5
    requires id.kind in {Mbc1, Mbc3, Mbc5} && !RtcSelected(id, r)
    requires !id.hasRam || r.ramBank as int >= id.numRamBanks
    ensures ReadSource(id, r, addr) == ZeroFill
  {
  }

  /** Otherwise they read the selected bank. */
  lemma BankedRamReads(id: Identity, r: BankRegs, addr: int)
    requires Consistent(id) && Aligned(addr) && Window(addr) == 5
    requires id.kind in {Mbc1, Mbc3, Mbc5} && !RtcSelected(id, r)
    requires id.hasRam && (r.ramBank as int) < id.numRamBanks
    ensures ReadSource(id, r, addr) == FromRam(addr - 0xA000 + r.ramBank as int * 0x2000)
  {
  }

  /** An MBC5 write to RAM with an out-of-range bank changes nothing at all. */
  lemma Mbc5OutOfRangeWriteIgnored(id: Identity, r: BankRegs, addr: int, b: bv8)
    requires Aligned(addr) && Window(addr) == 5 && id.kind == Mbc5
    requires r.ramBank as int >= id.numRamBanks
    ensures RamWriteOffset(id, r, addr) == None
    ensures NextRegs(id, r, addr, b) == r
    ensures TimerOpOf(id, r, addr, b) == NoTimerOp
  {
  }

  /** MBC2 reads RAM only when there is RAM and it is enabled, and then ignores the bank. */
  lemma Mbc2ReadGate(id: Identity, r: BankRegs, addr: int)
    requires Consistent(id) && Aligned(addr) && Window(addr) == 5 && id.kind == Mbc2
    ensures ReadSource(id, r, addr) == if id.hasRam && r.ramEnable then FromRam(addr - 0xA000) else ZeroFill
  {
  }

  /** A cartridge without a mapper and with RAM code 1 has only 0xA000-0xA7FF: reads
      above it give zeros and writes above it are ignored; below it both reach RAM. */
  lemma QuarterRamWithoutMapper(id: Identity, r: BankRegs, addr: int)
    requires Consistent(id) && Aligned(addr) && Window(addr) == 5
    requires id.kind == NoMbc && id.hasRam && id.ramCode == 0x01
    ensures addr >= 0xA800 ==> ReadSource(id, r, addr) == ZeroFill && RamWriteOffset(id, r, addr) == None
    ensures addr < 0xA800 ==>
      ReadSource(id, r, addr) == FromRam(addr - 0xA000) && RamWriteOffset(id, r, addr) == Some(addr - 0xA000)
  {
  }

  /** Windows 4, 6 and 7: a read leaves the buffer and the clock untouched. */
  lemma InvalidWindowsRead(id: Identity, r: BankRegs, rtc: RtcState, addr: int, now: int, rom: seq<bv8>,
                           ram: seq<bv8>, prev: seq<bv8>)
    requires Consistent(id) && Aligned(addr) && Window(addr) in {4, 6, 7} && WellFormed(rtc) && |prev| == BlockSize
    ensures ReadSource(id, r, addr) == Untouched
    ensures Block(ReadSource(id, r, addr), rom, ram, rtc, prev) == prev
    ensures RtcAfterRead(id, r, rtc, addr, now) == rtc
  {
  }

  /** A write to windows 4, 6 or 7 changes no register, no RAM byte and no clock register. */
  lemma InvalidWindowsWrite(id: Identity, r: BankRegs, addr: int, b: bv8)
    requires Aligned(addr) && Window(addr) in {4, 6, 7}
    ensures NextRegs(id, r, addr, b) == r
    ensures RamWriteOffset(id, r, addr) == None
    ensures TimerOpOf(id, r, addr, b) == NoTimerOp
  {
  }

  /** No write ever changes a register of a cartridge without a mapper. */
  lemma NoMbcHasNoRegisters(id: Identity, r: BankRegs, addr: int, b: bv8)
    requires Aligned(addr) && id.kind == NoMbc
    ensures NextRegs(id, r, addr, b) == r && TimerOpOf(id, r, addr, b) == NoTimerOp
  {
  }

  // ---------------------------------------------------------------- MBC3 clock window

  /** MBC3's 0x4000-0x5FFF: without RAM nothing changes; clock banks 0x08-0x0C are taken
      as they are only on a timer cart; anything else selects RAM bank `data & 3`. */
  lemma Mbc3RamSelect(id: Identity, r: BankRegs, b: bv8)
    ensures var s := Mbc3Write(id, r, 2, b);
      s.ramBank == (if !id.hasRam then r.ramBank
                    else if id.hasTimer && 0x08 <= b <= 0x0C then b as bv16
                    else (b & 0x03) as bv16) &&
      s.romBank == r.romBank && s.ramEnable == r.ramEnable
  {
  }

  /** The MBC3 register invariant: a ROM bank other than 0, and a RAM bank that is 0-3
      or, on a cart with RAM and a timer, a clock register 0x08-0x0C. */
  predicate Mbc3Inv(id: Identity, r: BankRegs)
  {
    r.romBank != 0 && (r.ramBank <= 3 || (id.hasRam && id.hasTimer && 0x08 <= r.ramBank <= 0x0C))
  }

  lemma {:induction false} Mbc3Reachable(id: Identity, r: BankRegs, ws: seq<(int, bv8)>)
    requires id.kind == Mbc3 && Mbc3Inv(id, r)
    requires forall i :: 0 <= i < |ws| ==> Aligned(ws[i].0)
    ensures Mbc3Inv(id, ApplyWrites(id, r, ws))
    decreases |ws|
  {
    if ws != [] {
      Mbc3Reachable(id, NextRegs(id, r, ws[0].0, ws[0].1), ws[1..]);
    }
  }

  lemma Mbc3InvReset(id: Identity)
    ensures Mbc3Inv(id, Reset)
  {
  }

  /** Through a mapper, windows 0-3 read as RomRead says. */
  lemma MapperRomSource(id: Identity, r: BankRegs, addr: int)
    requires Consistent(id) && Aligned(addr) && addr < 0x8000 && id.kind != NoMbc
    ensures ReadSource(id, r, addr) == RomRead(id, r, addr)
  {
    assert Window(addr) <= 3;
  }

  /** Without a clock register selected, MBC3's RAM window is banked RAM. */
  lemma Mbc3RamSource(id: Identity, r: BankRegs, addr: int)
    requires Consistent(id) && Aligned(addr) && Window(addr) == 5 && id.kind == Mbc3 && !RtcSelected(id, r)
    ensures ReadSource(id, r, addr) == BankedRamRead(id, r, addr)
  {
  }

  /** With a clock register selected, MBC3's RAM window reads that register. */
  lemma Mbc3ClockSource(id: Identity, r: BankRegs, addr: int)
    requires Consistent(id) && Aligned(addr) && Window(addr) == 5 && id.kind == Mbc3 && RtcSelected(id, r)
    ensures ReadSource(id, r, addr) == RtcRegister((r.ramBank - 0x08) as nat)
  {
  }

  /** An MBC3 clock read broadcasts one register: the snapshot while latched (and the
      clock is not ticked), otherwise the live register after ticking to `now`. */
  lemma {:induction false} Mbc3ClockRead(id: Identity, r: BankRegs, rtc: RtcState, addr: int, now: int,
                                         rom: seq<bv8>, ram: seq<bv8>, prev: seq<bv8>)
    requires Consistent(id) && Aligned(addr) && Window(addr) == 5 && id.kind == Mbc3 && RtcSelected(id, r)
    requires WellFormed(rtc) && |prev| == BlockSize
    requires !rtc.isLatched ==> ClockOk(rtc.last, now)
    ensures ReadSource(id, r, addr) == RtcRegister((r.ramBank - 0x08) as nat)
    ensures RtcAfterRead(id, r, rtc, addr, now) == (if rtc.isLatched then rtc else Tick(rtc, now))
    ensures var i := (r.ramBank - 0x08) as nat;
      Block(RtcRegister(i), rom, ram, RtcAfterRead(id, r, rtc, addr, now), prev) ==
        Fill(BlockSize, if rtc.isLatched then rtc.latched[i] else Advance(rtc.live, now - rtc.last)[i])
  {
    Mbc3ClockSource(id, r, addr);
    assert ReadTicks(id, r, rtc, addr) == !rtc.isLatched;
    var i := (r.ramBank - 0x08) as nat;
    var after := RtcAfterRead(id, r, rtc, addr, now);
    if rtc.isLatched {
      assert after == rtc;
      assert Visible(after, i) == rtc.latched[i];
    } else {
      assert after == Tick(rtc, now);
      assert Visible(after, i) == after.live[i];
    }
  }

  /** An MBC3 write to a clock register stores only the first data byte, in that register,
      and writes no RAM. */
  lemma Mbc3ClockWrite(id: Identity, r: BankRegs, rtc: RtcState, addr: int, b: bv8, now: int)
    requires Aligned(addr) && Window(addr) == 5 && id.kind == Mbc3 && id.hasRam && 0x08 <= r.ramBank <= 0x0C
    requires WellFormed(rtc)
    ensures var op := TimerOpOf(id, r, addr, b);
      var i := (r.ramBank - 0x08) as nat;
      op == StoreRegister(i) && RamWriteOffset(id, r, addr) == None &&
      var s := RtcAfterWrite(rtc, op, b, now);
      s.live[i] == b && (forall j :: 0 <= j < 5 && j != i ==> s.live[j] == rtc.live[j]) &&
      s.latched == rtc.latched && s.last == rtc.last && s.isLatched == rtc.isLatched
  {
  }
}
