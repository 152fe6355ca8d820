/** The cartridge as LoadCart leaves it and the ten bus handlers act on it: the
    ROM image, the RAM buffer, the bank registers, and the clock's live and latched
    register arrays. Read and Write dispatch on the mapper kind, as the handler
    pointers do, and each handler follows the branches of its C counterpart. */
module Cartridge {
  import opened Wrappers
  import opened Bytes
  import opened Header
  import opened Rtc
  import opened Banking
  import opened SaveFile
  import Trailer
  import BankingProperties

  /** CopyMemory of a whole buffer's worth of bytes. */
  method CopyOut(data: array<bv8>, src: seq<bv8>)
    requires data.Length == |src|
    modifies data
    ensures data[..] == src
  {
    forall i | 0 <= i < |src| {
      data[i] := src[i];
    }
  }

  /** ZeroMemory of the bus buffer. */
  method ZeroOut(data: array<bv8>)
    requires data.Length == BlockSize
    modifies data
    ensures data[..] == Zeros(BlockSize)
  {
    forall i | 0 <= i < BlockSize {
      data[i] := 0;
    }
  }

  /** The clock read's loop that broadcasts one register to all 32 bytes. */
  method FillOut(data: array<bv8>, v: bv8)
    requires data.Length == BlockSize
    modifies data
    ensures data[..] == Fill(BlockSize, v)
  {
    for i := 0 to BlockSize
      invariant forall j :: 0 <= j < i ==> data[j] == v
    {
      data[i] := v;
    }
  }

  /** CopyMemory of a block into a buffer at an offset. */
  method CopyIn(dst: array<bv8>, off: nat, src: seq<bv8>)
    requires off + |src| <= dst.Length
    modifies dst
    ensures dst[..] == Splice(old(dst[..]), off, src)
  {
    forall i | 0 <= i < |src| {
      dst[off + i] := src[i];
    }
  }

  /** UpdateRTC's update of the control byte once the new day count is known. */
  method RolloverControl(c: bv8, days: int) returns (r: bv8)
    requires days >= 0
    ensures r == Control(c, days)
  {
    r := c;
    var d := days;
    if d > 255 {
      if d > 511 {
        d := d % 512;
        r := r | 0x80;
      }
      if d > 255 {
        r := (r & 0xFE) | 0x01;
      }
    }
  }

  /** The first half of UpdateRTC's arithmetic: seconds, minutes and hours each get
      their share of `elapsed` added, wrapping at 256; the whole days are returned. */
  method AddTimeOfDay(t: array<bv8>, elapsed: nat) returns (days: nat)
    requires t.Length == 5
    modifies t
    ensures days == elapsed / 60 / 60 / 24
    ensures t[0] == AddWrapping(old(t[0]), elapsed % 60)
    ensures t[1] == AddWrapping(old(t[1]), elapsed / 60 % 60)
    ensures t[2] == AddWrapping(old(t[2]), elapsed / 60 / 60 % 24)
    ensures t[3] == old(t[3]) && t[4] == old(t[4])
  {
    var dif := elapsed;
    t[0] := AddWrapping(t[0], dif % 60);
    dif := dif / 60;
    t[1] := AddWrapping(t[1], dif % 60);
    dif := dif / 60;
    t[2] := AddWrapping(t[2], dif % 24);
    dif := dif / 24;
    days := dif;
  }

  /** The second half: the new 9-bit day count goes into the day-low and control bytes. */
  method AddDays(t: array<bv8>, dif: nat)
    requires t.Length == 5
    modifies t
    ensures t[0] == old(t[0]) && t[1] == old(t[1]) && t[2] == old(t[2])
    ensures t[3] == ((DayCount(old(t[..])) + dif) % 256) as bv8
    ensures t[4] == Control(old(t[4]), DayCount(old(t[..])) + dif)
  {
    var days := t[3] as int + (if t[4] & 1 == 1 then 256 else 0) + dif;
    assert days == DayCount(old(t[..])) + dif;
    t[3] := (days % 256) as bv8;
    t[4] := RolloverControl(t[4], days);
  }

  /** UpdateRTC's arithmetic on the five live registers for `elapsed` seconds. */
  method AdvanceRegistersInPlace(t: array<bv8>, elapsed: nat)
    requires t.Length == 5
    modifies t
    ensures t[..] == Advance(old(t[..]), elapsed)
  {
    ghost var before := t[..];
    var days := AddTimeOfDay(t, elapsed);
    assert DayCount(t[..]) == DayCount(before);
    AddDays(t, days);
    AdvanceRegisters(before, elapsed, t[0], t[1], t[2], t[3], t[4]);
    assert t[..] == [t[0], t[1], t[2], t[3], t[4]];
  }

  class Cart {
    const id: Identity
    const rom: seq<bv8>
    const ram: array<bv8>
    const timerData: array<bv8>
    const latchedTimerData: array<bv8>
    var romBank: bv16
    var ramBank: bv16
    var ramEnable: bool
    var mbc1RamMode: bool
    var timerLatched: bool
    var timerLastUpdate: Trailer.Time
    /** Whether the RAM came out of a Goomba container that SaveCart must repack. */
    var goombaBound: bool

    /** The invariant fixed by LoadCart. It constrains only the constant fields, so it
        holds for the lifetime of the object. */
    ghost predicate Valid()
    {
      Consistent(id) &&
      |rom| >= 0x8000 && |rom| == 0x4000 * id.numRomBanks && rom[0x149] == id.ramCode &&
      ram.Length == RamBufferSize(id) &&
      timerData.Length == 5 && latchedTimerData.Length == 5 &&
      ram != timerData && ram != latchedTimerData && timerData != latchedTimerData
    }

    function Registers(): BankRegs
      reads this
    {
      BankRegs(romBank, ramBank, ramEnable, mbc1RamMode)
    }

    function Clock(): (s: RtcState)
      reads this, timerData, latchedTimerData
      requires Valid()
      ensures WellFormed(s)
    {
      RtcState(timerData[..], latchedTimerData[..], timerLastUpdate, timerLatched)
    }

    /** The state at the end of a successful LoadCart: registers reset, latch cleared,
        the RAM buffer already populated, the clock registers zero until a trailer is read. */
    constructor Load(id: Identity, rom: seq<bv8>, ram: array<bv8>, goombaBound: bool)
      requires Identify(rom) == Success(id)
      requires ram.Length == RamBufferSize(id)
      ensures Valid()
      ensures this.id == id && this.rom == rom && this.ram == ram && this.goombaBound == goombaBound
      ensures Registers() == Reset
      ensures Clock() == RtcState(Zeros(5), Zeros(5), 0, false)
      ensures fresh(timerData) && fresh(latchedTimerData)
    {
      IdentifyConsistent(rom);
      this.id := id;
      this.rom := rom;
      this.ram := ram;
      this.goombaBound := goombaBound;
      timerData := new bv8[5](_ => 0);
      latchedTimerData := new bv8[5](_ => 0);
      romBank, ramBank, ramEnable, mbc1RamMode := 1, 0, false, false;
      timerLatched := false;
      timerLastUpdate := 0;
      new;
      assert timerData[..] == Zeros(5);
      assert latchedTimerData[..] == Zeros(5);
    }

    // ------------------------------------------------------------ clock

    /** UpdateRTC with the current time passed in. */
    method UpdateRtc(now: int)
      requires Valid() && ClockOk(timerLastUpdate, now)
      modifies timerData, this`timerLastUpdate
      ensures Clock() == Tick(old(Clock()), now)
    {
      ghost var c0 := Clock();
      AdvanceRegistersInPlace(timerData, now - timerLastUpdate);
      timerLastUpdate := now;
      assert Clock() == RtcState(Advance(c0.live, now - c0.last), c0.latched, now, c0.isLatched);
    }

    // ------------------------------------------------------------ reads

    /** Windows 0-3 through a mapper: bank 0, or the selected bank, or zeros past the ROM's end. */
    method ReadRomWindow(addr: int, data: array<bv8>)
      requires Valid() && Aligned(addr) && addr < 0x8000 && data.Length == BlockSize
      requires data != ram && data != timerData && data != latchedTimerData
      modifies data
      ensures Clock() == old(Clock())
      ensures data[..] == Block(RomRead(id, old(Registers()), addr), rom, old(ram[..]), old(Clock()), old(data[..]))
    {
      if addr / 0x2000 <= 1 {
        CopyOut(data, rom[addr..addr + BlockSize]);
      } else if romBank as int >= id.numRomBanks {
        ZeroOut(data);
      } else {
        var off := addr - 0x4000 + romBank as int * 0x4000;
        CopyOut(data, rom[off..off + BlockSize]);
      }
    }

    /** The RAM window through the banked mappers, with the bank checked against the RAM size. */
    method ReadBankedRam(addr: int, data: array<bv8>)
      requires Valid() && Aligned(addr) && Window(addr) == 5 && data.Length == BlockSize
      requires data != ram && data != timerData && data != latchedTimerData
      requires Readable(BankedRamRead(id, Registers(), addr), |rom|, ram.Length)
      modifies data
      ensures Clock() == old(Clock())
      ensures data[..] == Block(BankedRamRead(id, old(Registers()), addr), rom, old(ram[..]), old(Clock()), old(data[..]))
    {
      if id.hasRam {
        if ramBank as int >= id.numRamBanks {
          ZeroOut(data);
        } else {
          var off := addr - 0xA000 + ramBank as int * 0x2000;
          CopyOut(data, ram[off..off + BlockSize]);
        }
      } else {
        ZeroOut(data);
      }
    }

    /** ReadCartNorm. */
    method ReadNorm(addr: int, data: array<bv8>)
      requires Valid() && id.kind == NoMbc && Aligned(addr) && data.Length == BlockSize
      requires data != ram && data != timerData && data != latchedTimerData
      requires Readable(ReadSource(id, Registers(), addr), |rom|, ram.Length)
      modifies data
      ensures data[..] == Block(ReadSource(id, old(Registers()), addr), rom, old(ram[..]), old(Clock()), old(data[..]))
    {
      var w := addr / 0x2000;
      if w <= 3 {
        CopyOut(data, rom[addr..addr + BlockSize]);
      } else if w == 5 {
        if id.hasRam {
          if rom[0x149] == 0x01 && (addr - 0xA000) / 0x800 != 0 {
            ZeroOut(data);
          } else {
            CopyOut(data, ram[addr - 0xA000..addr - 0xA000 + BlockSize]);
          }
        } else {
          ZeroOut(data);
        }
      }
    }

    /** ReadCartMBC1. */
    method ReadMbc1(addr: int, data: array<bv8>)
      requires Valid() && id.kind == Mbc1 && Aligned(addr) && data.Length == BlockSize
      requires data != ram && data != timerData && data != latchedTimerData
      requires Readable(ReadSource(id, Registers(), addr), |rom|, ram.Length)
      modifies data
      ensures data[..] == Block(ReadSource(id, old(Registers()), addr), rom, old(ram[..]), old(Clock()), old(data[..]))
    {
      var w := addr / 0x2000;
      if w <= 3 {
        ReadRomWindow(addr, data);
      } else if w == 5 {
        ReadBankedRam(addr, data);
      }
    }

    /** ReadCartMBC2: RAM reads need RAM and the enable flag, and ignore the bank. */
    method ReadMbc2(addr: int, data: array<bv8>)
      requires Valid() && id.kind == Mbc2 && Aligned(addr) && data.Length == BlockSize
      requires data != ram && data != timerData && data != latchedTimerData
      requires Readable(ReadSource(id, Registers(), addr), |rom|, ram.Length)
      modifies data
      ensures data[..] == Block(ReadSource(id, old(Registers()), addr), rom, old(ram[..]), old(Clock()), old(data[..]))
    {
      var w := addr / 0x2000;
      if w <= 3 {
        ReadRomWindow(addr, data);
      } else if w == 5 {
        if id.hasRam && ramEnable {
          CopyOut(data, ram[addr - 0xA000..addr - 0xA000 + BlockSize]);
        } else {
          ZeroOut(data);
        }
      }
    }

    /** ReadCartMBC3: the RAM window shows a clock register while one is selected. */
    method ReadMbc3(addr: int, data: array<bv8>, now: int)
      requires Valid() && id.kind == Mbc3 && Aligned(addr) && data.Length == BlockSize
      requires data != ram && data != timerData && data != latchedTimerData
      requires Readable(ReadSource(id, Registers(), addr), |rom|, ram.Length)
      requires ReadTicks(id, Registers(), Clock(), addr) ==> ClockOk(timerLastUpdate, now)
      modifies data, timerData, this`timerLastUpdate
      ensures Clock() == RtcAfterRead(id, old(Registers()), old(Clock()), addr, now)
      ensures data[..] == Block(ReadSource(id, old(Registers()), addr), rom, old(ram[..]), Clock(), old(data[..]))
    {
      var w := addr / 0x2000;
      if w <= 3 {
        BankingProperties.MapperRomSource(id, Registers(), addr);
        ReadRomWindow(addr, data);
      } else if w == 5 {
        ReadMbc3Ram(addr, data, now);
      }
    }

    /** ReadCartMBC3's RAM window: a clock register while one is selected, else banked RAM. */
    method ReadMbc3Ram(addr: int, data: array<bv8>, now: int)
      requires Valid() && id.kind == Mbc3 && Aligned(addr) && Window(addr) == 5 && data.Length == BlockSize
      requires data != ram && data != timerData && data != latchedTimerData
      requires Readable(ReadSource(id, Registers(), addr), |rom|, ram.Length)
      requires ReadTicks(id, Registers(), Clock(), addr) ==> ClockOk(timerLastUpdate, now)
      modifies data, timerData, this`timerLastUpdate
      ensures Clock() == RtcAfterRead(id, old(Registers()), old(Clock()), addr, now)
      ensures data[..] == Block(ReadSource(id, old(Registers()), addr), rom, old(ram[..]), Clock(), old(data[..]))
    {
      if id.hasTimer && 0x08 <= ramBank <= 0x0C {
        ReadClockRegister(addr, data, now);
      } else {
        BankingProperties.Mbc3RamSource(id, Registers(), addr);
        ReadBankedRam(addr, data);
      }
    }

    /** ReadCartMBC3's clock window: broadcast the selected register, the snapshot while
        latched, otherwise the live register after an update. */
    method ReadClockRegister(addr: int, data: array<bv8>, now: int)
      requires Valid() && id.kind == Mbc3 && Aligned(addr) && Window(addr) == 5 && data.Length == BlockSize
      requires data != timerData && data != latchedTimerData
      requires RtcSelected(id, Registers())
      requires !timerLatched ==> ClockOk(timerLastUpdate, now)
      modifies data, timerData, this`timerLastUpdate
      ensures Clock() == RtcAfterRead(id, old(Registers()), old(Clock()), addr, now)
      ensures data[..] == Block(ReadSource(id, old(Registers()), addr), rom, old(ram[..]), Clock(), old(data[..]))
    {
      BankingProperties.Mbc3ClockSource(id, Registers(), addr);
      var i := (ramBank - 0x08) as int;
      if timerLatched {
        FillOut(data, latchedTimerData[i]);
      } else {
        UpdateRtc(now);
        FillOut(data, timerData[i]);
      }
    }

    /** ReadCartMBC5. */
    method ReadMbc5(addr: int, data: array<bv8>)
      requires Valid() && id.kind == Mbc5 && Aligned(addr) && data.Length == BlockSize
      requires data != ram && data != timerData && data != latchedTimerData
      requires Readable(ReadSource(id, Registers(), addr), |rom|, ram.Length)
      modifies data
      ensures data[..] == Block(ReadSource(id, old(Registers()), addr), rom, old(ram[..]), old(Clock()), old(data[..]))
    {
      var w := addr / 0x2000;
      if w <= 3 {
        ReadRomWindow(addr, data);
      } else if w == 5 {
        ReadBankedRam(addr, data);
      }
    }

    /** A bus read: the handler for the cartridge's mapper fills `data`. Only an MBC3
        clock read changes state, by ticking the clock. */
    method Read(addr: int, data: array<bv8>, now: int)
      requires Valid() && Aligned(addr) && data.Length == BlockSize
      requires data != ram && data != timerData && data != latchedTimerData
      requires Readable(ReadSource(id, Registers(), addr), |rom|, ram.Length)
      requires ReadTicks(id, Registers(), Clock(), addr) ==> ClockOk(timerLastUpdate, now)
      modifies data, timerData, this`timerLastUpdate
      ensures Clock() == RtcAfterRead(id, old(Registers()), old(Clock()), addr, now)
      ensures data[..] == Block(ReadSource(id, old(Registers()), addr), rom, old(ram[..]), Clock(), old(data[..]))
    {
      match id.kind
      case NoMbc => ReadNorm(addr, data);
      case Mbc1 => ReadMbc1(addr, data);
      case Mbc2 => ReadMbc2(addr, data);
      case Mbc3 => ReadMbc3(addr, data, now);
      case Mbc5 => ReadMbc5(addr, data);
    }

    // ------------------------------------------------------------ writes

    /** WriteCartNorm: RAM writes only, a quarter of the window when the RAM-size code is 1. */
    method WriteNorm(addr: int, data: seq<bv8>)
      requires Valid() && id.kind == NoMbc && Aligned(addr) && |data| == BlockSize
      requires WriteFits(RamWriteOffset(id, Registers(), addr), ram.Length)
      modifies ram
      ensures ram[..] == RamAfterWrite(RamWriteOffset(id, Registers(), addr), old(ram[..]), data)
    {
      if !id.hasRam {
        return;
      }
      if rom[0x149] == 1 {
        if 0xA000 <= addr <= 0xA7FF {
          CopyIn(ram, addr - 0xA000, data);
        }
      } else {
        if 0xA000 <= addr <= 0xBFFF {
          CopyIn(ram, addr - 0xA000, data);
        }
      }
    }

    /** WriteCartMBC1, window 1: the low five bits of the ROM bank; 0 reads as 1. */
    method Mbc1SelectRomLow(b: bv8)
      modifies this`romBank
      ensures Registers() == Mbc1Write(old(Registers()), 1, b)
    {
      romBank := romBank & 0x60;
      romBank := romBank | (b & 0x1F) as bv16;
      if romBank & 0x1F == 0 {
        romBank := romBank | 0x01;
      }
    }

    /** WriteCartMBC1, window 2: the RAM bank in RAM mode, ROM bank bits 5 and 6 otherwise. */
    method Mbc1SelectUpper(b: bv8)
      modifies this`romBank, this`ramBank
      ensures Registers() == Mbc1Write(old(Registers()), 2, b)
    {
      if mbc1RamMode {
        ramBank := (b & 0x03) as bv16;
      } else {
        romBank := romBank & 0x1F;
        romBank := romBank | ((b & 0x03) as bv16 << 5);
      }
    }

    /** WriteCartMBC1, 0x6000-0x7FFF: the ROM/RAM banking mode. */
    method Mbc1SelectMode(b: bv8)
      modifies this`romBank, this`ramBank, this`mbc1RamMode
      ensures Registers() == Mbc1Mode(old(Registers()), b & 0x01 == 0x01)
    {
      var mode := b & 0x01 == 0x01;
      if mbc1RamMode != mode {
        ghost var r := Registers();
        if mode {
          Mbc1EnterRamMode();
          assert Registers() == Mbc1Mode(r, true);
        } else {
          Mbc1LeaveRamMode();
          assert Registers() == Mbc1Mode(r, false);
        }
      }
    }

    /** Entering RAM-banking mode: ROM bits 5-6 become the RAM bank. */
    method Mbc1EnterRamMode()
      requires !mbc1RamMode
      modifies this`romBank, this`ramBank, this`mbc1RamMode
      ensures mbc1RamMode && ramBank == old(romBank) >> 5 && romBank == old(romBank) & 0x1F
    {
      mbc1RamMode := true;
      ramBank := romBank >> 5;
      romBank := romBank & 0x1F;
    }

    /** Leaving it: the RAM bank goes back into ROM bits 5-6 and RAM bank 0 is selected. */
    method Mbc1LeaveRamMode()
      requires mbc1RamMode
      modifies this`romBank, this`ramBank, this`mbc1RamMode
      ensures !mbc1RamMode && romBank == (old(romBank) & 0x1F) | (old(ramBank) << 5) && ramBank == 0
    {
      mbc1RamMode := false;
      romBank := romBank & 0x1F;
      romBank := romBank | (ramBank << 5);
      ramBank := 0;
    }

    /** WriteCartMBC1. */
    method WriteMbc1(addr: int, data: seq<bv8>)
      requires Valid() && id.kind == Mbc1 && Aligned(addr) && |data| == BlockSize
      requires WriteFits(RamWriteOffset(id, Registers(), addr), ram.Length)
      modifies this`romBank, this`ramBank, this`ramEnable, this`mbc1RamMode, ram
      ensures Registers() == NextRegs(id, old(Registers()), addr, data[0])
      ensures ram[..] == RamAfterWrite(RamWriteOffset(id, old(Registers()), addr), old(ram[..]), data)
    {
      var b := data[0];
      match addr / 0x2000
      case 0 =>
        ramEnable := b == 0x0A;
      case 1 =>
        Mbc1SelectRomLow(b);
      case 2 =>
        Mbc1SelectUpper(b);
      case 3 =>
        Mbc1SelectMode(b);
      case 5 =>
        if id.hasRam {
          CopyIn(ram, addr - 0xA000 + ramBank as int * 0x2000, data);
        }
      case _ =>
    }

    /** WriteCartMBC2. */
    method WriteMbc2(addr: int, data: seq<bv8>)
      requires Valid() && id.kind == Mbc2 && Aligned(addr) && |data| == BlockSize
      requires WriteFits(RamWriteOffset(id, Registers(), addr), ram.Length)
      modifies this`romBank, this`ramBank, this`ramEnable, ram
      ensures Registers() == NextRegs(id, old(Registers()), addr, data[0])
      ensures ram[..] == RamAfterWrite(RamWriteOffset(id, old(Registers()), addr), old(ram[..]), data)
    {
      var b := data[0];
      var w := addr / 0x2000;
      if w <= 2 {
        Mbc2SetRegister(w, b);
      } else if w == 5 && id.hasRam {
        CopyIn(ram, addr - 0xA000 + ramBank as int * 0x2000, data);
      }
    }

    /** WriteCartMBC2's register windows: RAM enable, ROM bank and RAM bank. */
    method Mbc2SetRegister(w: int, b: bv8)
      requires 0 <= w <= 2
      modifies this`romBank, this`ramBank, this`ramEnable
      ensures Registers() == Mbc2Write(id, old(Registers()), w, b)
    {
      if w == 0 {
        ramEnable := b == 0x0A;
      } else if w == 1 {
        romBank := (b & 0x0F) as bv16;
        if romBank == 0 {
          romBank := 1;
        }
      } else if id.hasRam {
        ramBank := (b & 0x07) as bv16;
      }
    }

    /** WriteCartMBC3's latch register: snapshot all five registers; when latching,
        tick and snapshot the first four again. */
    method LatchRegisters(on: bool, now: int)
      requires Valid() && (on ==> ClockOk(timerLastUpdate, now))
      modifies timerData, latchedTimerData, this`timerLastUpdate, this`timerLatched
      ensures Clock() == LatchWrite(old(Clock()), on, now)
    {
      CopyOut(latchedTimerData, timerData[..]);
      if on {
        UpdateRtc(now);
        SnapshotTimeOfDay();
        timerLatched := true;
      } else {
        timerLatched := false;
      }
    }

    /** The latch's loop over seconds, minutes, hours and day-low. */
    method SnapshotTimeOfDay()
      requires Valid()
      modifies latchedTimerData
      ensures latchedTimerData[..] == timerData[..4] + [old(latchedTimerData[4])]
    {
      for i := 0 to 4
        invariant forall j :: 0 <= j < i ==> latchedTimerData[j] == timerData[j]
        invariant latchedTimerData[4] == old(latchedTimerData[4])
      {
        latchedTimerData[i] := timerData[i];
      }
    }

    /** WriteCartMBC3: a clock bank selected turns RAM writes into a register store. */
    method WriteMbc3(addr: int, data: seq<bv8>, now: int)
      requires Valid() && id.kind == Mbc3 && Aligned(addr) && |data| == BlockSize
      requires WriteFits(RamWriteOffset(id, Registers(), addr), ram.Length)
      requires TimerOpOf(id, Registers(), addr, data[0]) == Latch(true) ==> ClockOk(timerLastUpdate, now)
      modifies this`romBank, this`ramBank, this`ramEnable, this`timerLastUpdate, this`timerLatched
      modifies ram, timerData, latchedTimerData
      ensures Registers() == NextRegs(id, old(Registers()), addr, data[0])
      ensures ram[..] == RamAfterWrite(RamWriteOffset(id, old(Registers()), addr), old(ram[..]), data)
      ensures Clock() == RtcAfterWrite(old(Clock()), TimerOpOf(id, old(Registers()), addr, data[0]), data[0], now)
    {
      var b := data[0];
      match addr / 0x2000
      case 0 =>
        Mbc3SetRegister(0, b);
      case 1 =>
        Mbc3SetRegister(1, b);
      case 2 =>
        Mbc3SetRegister(2, b);
      case 3 =>
        LatchRegisters(b & 1 == 1, now);
      case 5 =>
        WriteMbc3Ram(addr, data);
      case _ =>
    }

    /** WriteCartMBC3's register windows: RAM enable, ROM bank, RAM or clock bank. */
    method Mbc3SetRegister(w: int, b: bv8)
      requires 0 <= w <= 2
      modifies this`romBank, this`ramBank, this`ramEnable
      ensures Registers() == Mbc3Write(id, old(Registers()), w, b)
    {
      if w == 0 {
        ramEnable := b == 0x0A;
      } else if w == 1 {
        romBank := (b & 0x7F) as bv16;
        if romBank == 0 {
          romBank := 1;
        }
      } else if id.hasRam {
        ramBank := (b & 0x03) as bv16;
        if id.hasTimer && 0x08 <= b <= 0x0C {
          ramBank := b as bv16;
        }
      }
    }

        /** WriteCartMBC3's RAM window, in terms of the bus-level write effects. */
    method WriteMbc3Ram(addr: int, data: seq<bv8>)
      requires Valid() && id.kind == Mbc3 && Aligned(addr) && Window(addr) == 5 && |data| == BlockSize
      requires WriteFits(RamWriteOffset(id, Registers(), addr), ram.Length)
      modifies ram, timerData
      ensures ram[..] == RamAfterWrite(RamWriteOffset(id, old(Registers()), addr), old(ram[..]), data)
      ensures Clock() == RtcAfterWrite(old(Clock()), TimerOpOf(id, old(Registers()), addr, data[0]), data[0], 0)
    {
      Mbc3RamWindowWrite(id, Registers(), addr, data[0]);
      StoreRamOrClock(addr, data);
    }

    /** WriteCartMBC3's RAM window: a clock register store while one is selected,
        otherwise a banked RAM write. */
    method StoreRamOrClock(addr: int, data: seq<bv8>)
      requires Valid() && id.kind == Mbc3 && Window(addr) == 5 && |data| == BlockSize
      requires id.hasRam && !(0x08 <= ramBank <= 0x0C) ==>
        addr - 0xA000 + ramBank as int * 0x2000 + BlockSize <= ram.Length
      modifies ram, timerData
      ensures ram[..] == RamAfterWrite(
        if id.hasRam && !(0x08 <= old(ramBank) <= 0x0C) then Some(addr - 0xA000 + old(ramBank) as int * 0x2000) else None,
        old(ram[..]), data)
      ensures Clock() == RtcAfterWrite(old(Clock()),
        if id.hasRam && 0x08 <= old(ramBank) <= 0x0C then StoreRegister((old(ramBank) - 0x08) as nat) else NoTimerOp,
        data[0], 0)
    {
      if id.hasRam {
        if 0x08 <= ramBank <= 0x0C {
          StoreClockRegister((ramBank - 0x08) as nat, data[0]);
        } else {
          WriteBankedRam(addr - 0xA000 + ramBank as int * 0x2000, data);
        }
      }
    }

    /** A RAM write through a bank: 32 bytes at `off`, the clock untouched. */
    method WriteBankedRam(off: nat, data: seq<bv8>)
      requires Valid() && off + |data| <= ram.Length
      modifies ram
      ensures ram[..] == Splice(old(ram[..]), off, data)
      ensures Clock() == old(Clock())
    {
      CopyIn(ram, off, data);
    }

    /** A write to a selected clock register stores its first data byte there. */
    method StoreClockRegister(i: nat, b: bv8)
      requires Valid() && i < 5
      modifies timerData
      ensures Clock() == old(Clock()).(live := old(Clock()).live[i := b])
    {
      timerData[i] := b;
      assert timerData[..] == old(timerData[..])[i := b];
    }

    /** WriteCartMBC5, 0x2000-0x2FFF: the low eight bits of the ROM bank. */
    method Mbc5SelectRomLow(b: bv8)
      modifies this`romBank
      ensures Registers() == Mbc5Write(id, old(Registers()), 2, b)
    {
      Mbc5RomLowWrite(id, Registers(), b);
      romBank := romBank & 0xFF00;
      romBank := romBank | b as bv16;
    }

    /** WriteCartMBC5, 0x3000-0x3FFF: bit 8 of the ROM bank. */
    method Mbc5SelectRomHigh(b: bv8)
      modifies this`romBank
      ensures Registers() == Mbc5Write(id, old(Registers()), 3, b)
    {
      romBank := romBank & 0x00FF;
      romBank := romBank | ((b & 0x01) as bv16 << 8);
    }

    /** WriteCartMBC5: register decoding on 4 KB windows; RAM writes check the bank. */
    method WriteMbc5(addr: int, data: seq<bv8>)
      requires Valid() && id.kind == Mbc5 && Aligned(addr) && |data| == BlockSize
      requires WriteFits(RamWriteOffset(id, Registers(), addr), ram.Length)
      modifies this`romBank, this`ramBank, this`ramEnable, ram
      ensures Registers() == NextRegs(id, old(Registers()), addr, data[0])
      ensures ram[..] == RamAfterWrite(RamWriteOffset(id, old(Registers()), addr), old(ram[..]), data)
    {
      var b := data[0];
      match addr / 0x1000
      case 0 =>
        ramEnable := b == 0x0A;
      case 1 =>
        ramEnable := b == 0x0A;
      case 2 =>
        Mbc5SelectRomLow(b);
      case 3 =>
        Mbc5SelectRomHigh(b);
      case 4 =>
        if id.hasRam {
          ramBank := (b & 0x0F) as bv16;
        }
      case 5 =>
        if id.hasRam {
          ramBank := (b & 0x0F) as bv16;
        }
      case 10 =>
        WriteMbc5Ram(addr, data);
      case 11 =>
        WriteMbc5Ram(addr, data);
      case _ =>
    }

    method WriteMbc5Ram(addr: int, data: seq<bv8>)
      requires Valid() && id.kind == Mbc5 && Aligned(addr) && Window(addr) == 5 && |data| == BlockSize
      requires WriteFits(RamWriteOffset(id, Registers(), addr), ram.Length)
      modifies ram
      ensures ram[..] == RamAfterWrite(RamWriteOffset(id, Registers(), addr), old(ram[..]), data)
    {
      ghost var o := RamWriteOffset(id, Registers(), addr);
      assert o == if id.hasRam && (ramBank as int) < id.numRamBanks
                  then Some(addr - 0xA000 + ramBank as int * 0x2000) else None;
      if id.hasRam {
        if ramBank as int >= id.numRamBanks {
          return;
        }
        CopyIn(ram, addr - 0xA000 + ramBank as int * 0x2000, data);
      }
    }

    /** A bus write of 32 bytes: register writes take the first byte, RAM writes all 32. */
    method Write(addr: int, data: seq<bv8>, now: int)
      requires Valid() && Aligned(addr) && |data| == BlockSize
      requires WriteFits(RamWriteOffset(id, Registers(), addr), ram.Length)
      requires TimerOpOf(id, Registers(), addr, data[0]) == Latch(true) ==> ClockOk(timerLastUpdate, now)
      modifies this`romBank, this`ramBank, this`ramEnable, this`mbc1RamMode
      modifies this`timerLastUpdate, this`timerLatched
      modifies ram, timerData, latchedTimerData
      ensures Registers() == NextRegs(id, old(Registers()), addr, data[0])
      ensures ram[..] == RamAfterWrite(RamWriteOffset(id, old(Registers()), addr), old(ram[..]), data)
      ensures Clock() == RtcAfterWrite(old(Clock()), TimerOpOf(id, old(Registers()), addr, data[0]), data[0], now)
    {
      match id.kind
      case NoMbc => WriteNorm(addr, data);
      case Mbc1 => WriteMbc1(addr, data);
      case Mbc2 => WriteMbc2(addr, data);
      case Mbc3 => WriteMbc3(addr, data, now);
      case Mbc5 => WriteMbc5(addr, data);
    }

    // ------------------------------------------------------------ save file

    /** The trailer part of LoadCart for a timer cartridge with a battery: when the save
        file is long enough, take the registers and timestamp from the trailer and bring
        the clock up to `now`. A file that is too short leaves the clock as it was. */
    method RestoreClock(fileSize: nat, now: int)
      requires Valid() && HasTrailer(id)
      requires TrailerPresent(id, fileSize) ==> ClockOk(StoredTrailer(id, ram[..]).lastTime, now)
      modifies timerData, latchedTimerData, this`timerLastUpdate
      ensures TrailerPresent(id, fileSize) ==> Clock() == Tick(Restore(old(Clock()), StoredTrailer(id, ram[..])), now)
      ensures !TrailerPresent(id, fileSize) ==> Clock() == old(Clock())
    {
      var off := id.quarterBlocks * 0x800;
      if fileSize >= off + Trailer.TrailerSize {
        var t := Trailer.Deserialise(ram[off..off + Trailer.TrailerSize]);
        assert t == StoredTrailer(id, ram[..]);
        CopyOut(timerData, t.live);
        CopyOut(latchedTimerData, t.latched);
        timerLastUpdate := t.lastTime;
        assert Clock() == Restore(old(Clock()), t);
        UpdateRtc(now);
      }
    }

    /** SaveCart for a plain save file: a timer cartridge with a battery writes the clock
        trailer into the buffer after the RAM region, at the offset recomputed from header
        byte 0x149. A Goomba-bound cartridge is repacked instead, which is not modelled. */
    method Save()
      requires Valid()
      modifies ram
      ensures ram[..] == SavedRam(id, goombaBound, old(ram[..]), Clock())
    {
      if goombaBound {
        return;
      }
      if id.hasRam && id.hasBattery {
        var quarterBlocks := 0;
        match rom[0x149] {
          case 1 => quarterBlocks := 1;
          case 2 => quarterBlocks := 4;
          case 3 => quarterBlocks := 16;
          case 4 => quarterBlocks := 64;
          case _ =>
        }
        if id.hasTimer {
          CopyIn(ram, quarterBlocks * 0x800, Trailer.Serialise(ToTrailer(Clock())));
        }
      }
    }
  }
}
