/** The banking engine as a specification: for each of the five mappers, where a
    32-byte bus read takes its data from, and what a 32-byte bus write does to the
    bank registers, to the RAM image and to the MBC3 clock. The Cart class in module
    Cartridge carries these out on its fields and arrays. */
module Banking {
  import opened Wrappers
  import opened Bytes
  import opened Header
  import opened Rtc

  /** The banking state: iCurrentRomBankNo, iCurrentRamBankNo, bRamEnableState, bMBC1RAMbanking. */
  datatype BankRegs = BankRegs(romBank: bv16, ramBank: bv16, ramEnable: bool, mbc1RamMode: bool)

  /** The state LoadCart resets the registers to. */
  const Reset: BankRegs := BankRegs(1, 0, false, false)

  /** A bus address: 16 bits, block-aligned. */
  predicate Aligned(addr: int)
  {
    0 <= addr < 0x10000 && addr % BlockSize == 0
  }

  /** The 8 KB window of an address (`addr >> 13`). */
  function Window(addr: int): int
  {
    addr / 0x2000
  }

  /** Where the 32 bytes of a read come from. */
  datatype Source =
    | FromRom(off: nat)       // rom[off .. off+32]
    | FromRam(off: nat)       // ram[off .. off+32]
    | ZeroFill                // 32 zero bytes
    | RtcRegister(reg: nat)   // one clock register broadcast to all 32 bytes
    | Untouched               // the output buffer is left as it was

  /** Reads of 0x0000-0x7FFF through a mapper: bank 0 fixed, then the selected bank,
      or zeros when the selected bank is past the end of the ROM. */
  function RomRead(id: Identity, r: BankRegs, addr: int): (s: Source)
    requires 0 <= addr < 0x8000
    ensures s.FromRom? || s == ZeroFill
    ensures s == ZeroFill <==> addr >= 0x4000 && r.romBank as int >= id.numRomBanks
  {
    if addr < 0x4000 then FromRom(addr)
    else if r.romBank as int >= id.numRomBanks then ZeroFill
    else FromRom(addr - 0x4000 + r.romBank as int * 0x4000)
  }

  /** Reads of the RAM window through a banked mapper: zeros without RAM or past the last bank. */
  function BankedRamRead(id: Identity, r: BankRegs, addr: int): (s: Source)
    requires 0xA000 <= addr
    ensures s.FromRam? || s == ZeroFill
    ensures s == ZeroFill <==> !id.hasRam || r.ramBank as int >= id.numRamBanks
  {
    if !id.hasRam then ZeroFill
    else if r.ramBank as int >= id.numRamBanks then ZeroFill
    else FromRam(addr - 0xA000 + r.ramBank as int * 0x2000)
  }

  /** The MBC3 RAM window shows a clock register while bank 0x08-0x0C is selected on a timer cart. */
  predicate RtcSelected(id: Identity, r: BankRegs)
  {
    id.hasTimer && 0x08 <= r.ramBank <= 0x0C
  }

  /** The read handlers' address decode (ReadCartNorm ... ReadCartMBC5). */
  function ReadSource(id: Identity, r: BankRegs, addr: int): (s: Source)
    requires Consistent(id) && Aligned(addr)
    ensures s.FromRom? ==> s.off + BlockSize <= 0x4000 * id.numRomBanks
    ensures s.RtcRegister? ==> s.reg < 5 && id.kind == Mbc3
    ensures s == Untouched <==> Window(addr) in {4, 6, 7}
  {
    var w := Window(addr);
    match id.kind
    case NoMbc =>
      if w <= 3 then FromRom(addr)
      else if w == 5 then
        if !id.hasRam then ZeroFill
        else if id.ramCode == 0x01 && (addr - 0xA000) / 0x800 != 0 then ZeroFill
        else FromRam(addr - 0xA000)
      else Untouched
    case Mbc1 =>
      if w <= 3 then RomRead(id, r, addr)
      else if w == 5 then BankedRamRead(id, r, addr)
      else Untouched
    case Mbc2 =>
      if w <= 3 then RomRead(id, r, addr)
      else if w == 5 then (if id.hasRam && r.ramEnable then FromRam(addr - 0xA000) else ZeroFill)
      else Untouched
    case Mbc3 =>
      if w <= 3 then RomRead(id, r, addr)
      else if w == 5 then
        if RtcSelected(id, r) then RtcRegister((r.ramBank - 0x08) as nat)
        else BankedRamRead(id, r, addr)
      else Untouched
    case Mbc5 =>
      if w <= 3 then RomRead(id, r, addr)
      else if w == 5 then BankedRamRead(id, r, addr)
      else Untouched
  }

  /** A source is readable when its bytes lie inside the buffers. */
  predicate Readable(s: Source, romLen: nat, ramLen: nat)
  {
    match s
    case FromRom(o) => o + BlockSize <= romLen
    case FromRam(o) => o + BlockSize <= ramLen
    case _ => true
  }

  /** The 32 bytes a read delivers from its source; `prev` is the buffer's old content. */
  function Block(s: Source, rom: seq<bv8>, ram: seq<bv8>, rtc: RtcState, prev: seq<bv8>): (b: seq<bv8>)
    requires Readable(s, |rom|, |ram|) && WellFormed(rtc) && |prev| == BlockSize
    requires s.RtcRegister? ==> s.reg < 5
    ensures |b| == BlockSize
    ensures s.FromRom? ==> forall k :: 0 <= k < BlockSize ==> b[k] == rom[s.off + k]
    ensures s.FromRam? ==> forall k :: 0 <= k < BlockSize ==> b[k] == ram[s.off + k]
    ensures s == ZeroFill ==> forall k :: 0 <= k < BlockSize ==> b[k] == 0
    ensures s.RtcRegister? ==>
      forall k :: 0 <= k < BlockSize ==> b[k] == (if rtc.isLatched then rtc.latched[s.reg] else rtc.live[s.reg])
    ensures s == Untouched ==> b == prev
  {
    match s
    case FromRom(o) => rom[o..o + BlockSize]
    case FromRam(o) => ram[o..o + BlockSize]
    case ZeroFill => Zeros(BlockSize)
    case RtcRegister(i) => Fill(BlockSize, Visible(rtc, i))
    case Untouched => prev
  }

  /** A read ticks the clock exactly when it shows a live (unlatched) clock register. */
  predicate ReadTicks(id: Identity, r: BankRegs, rtc: RtcState, addr: int)
    requires Consistent(id) && Aligned(addr)
  {
    ReadSource(id, r, addr).RtcRegister? && !rtc.isLatched
  }

  function RtcAfterRead(id: Identity, r: BankRegs, rtc: RtcState, addr: int, now: int): (s: RtcState)
    requires Consistent(id) && Aligned(addr) && WellFormed(rtc)
    requires ReadTicks(id, r, rtc, addr) ==> ClockOk(rtc.last, now)
    ensures WellFormed(s)
  {
    if ReadTicks(id, r, rtc, addr) then Tick(rtc, now) else rtc
  }

  // ---------------------------------------------------------------- writes

  /** WriteCartMBC1's register updates; `w` is the 8 KB window. */
  function Mbc1Write(r: BankRegs, w: int, b: bv8): (s: BankRegs)
    ensures w != 0 ==> s.ramEnable == r.ramEnable
    ensures w == 0 ==> s.ramEnable == (b == 0x0A) && s.romBank == r.romBank && s.ramBank == r.ramBank
    ensures w != 3 ==> s.mbc1RamMode == r.mbc1RamMode
    ensures w == 1 ==> s.romBank & 0x1F != 0 && s.ramBank == r.ramBank
    ensures !(0 <= w <= 3) ==> s == r
  {
    if w == 0 then r.(ramEnable := b == 0x0A)
    else if w == 1 then
      var bank := (r.romBank & 0x60) | (b & 0x1F) as bv16;
      r.(romBank := if bank & 0x1F == 0 then bank | 0x01 else bank)
    else if w == 2 then
      if r.mbc1RamMode then r.(ramBank := (b & 0x03) as bv16)
      else r.(romBank := (r.romBank & 0x1F) | ((b & 0x03) as bv16 << 5))
    else if w == 3 then Mbc1Mode(r, b & 0x01 == 0x01)
    else r
  }

  /** The MBC1 mode register: entering RAM-banking mode moves ROM bits 5-6 into the RAM
      bank; leaving moves them back and selects RAM bank 0; the mode in force is a no-op. */
  function Mbc1Mode(r: BankRegs, mode: bool): (s: BankRegs)
    ensures s.mbc1RamMode == mode && s.ramEnable == r.ramEnable
    ensures s.romBank & 0x1F == r.romBank & 0x1F
    ensures r.mbc1RamMode == mode ==> s == r
  {
    if r.mbc1RamMode == mode then r
    else if mode then r.(mbc1RamMode := true, ramBank := r.romBank >> 5, romBank := r.romBank & 0x1F)
    else r.(mbc1RamMode := false, romBank := (r.romBank & 0x1F) | (r.ramBank << 5), ramBank := 0)
  }

  /** WriteCartMBC2's register updates. */
  function Mbc2Write(id: Identity, r: BankRegs, w: int, b: bv8): (s: BankRegs)
    ensures s.mbc1RamMode == r.mbc1RamMode
    ensures s.ramEnable != r.ramEnable ==> w == 0
    ensures s.romBank != r.romBank ==> w == 1
    ensures w == 1 ==> 1 <= s.romBank <= 0x0F
    ensures s.ramBank != r.ramBank ==> w == 2 && id.hasRam && s.ramBank <= 0x07
  {
    if w == 0 then r.(ramEnable := b == 0x0A)
    else if w == 1 then
      var bank := (b & 0x0F) as bv16;
      r.(romBank := if bank == 0 then 1 else bank)
    else if w == 2 && id.hasRam then r.(ramBank := (b & 0x07) as bv16)
    else r
  }

  /** WriteCartMBC3's register updates (its latch register touches only the clock). */
  function Mbc3Write(id: Identity, r: BankRegs, w: int, b: bv8): (s: BankRegs)
    ensures s.mbc1RamMode == r.mbc1RamMode
    ensures s.ramEnable != r.ramEnable ==> w == 0
    ensures s.romBank != r.romBank ==> w == 1
    ensures w == 1 ==> 1 <= s.romBank <= 0x7F
    ensures s.ramBank != r.ramBank ==>
      w == 2 && id.hasRam && (s.ramBank <= 0x03 || (id.hasTimer && 0x08 <= s.ramBank <= 0x0C))
  {
    if w == 0 then r.(ramEnable := b == 0x0A)
    else if w == 1 then
      var bank := (b & 0x7F) as bv16;
      r.(romBank := if bank == 0 then 1 else bank)
    else if w == 2 && id.hasRam then
      r.(ramBank := if id.hasTimer && 0x08 <= b <= 0x0C then b as bv16 else (b & 0x03) as bv16)
    else r
  }

  /** WriteCartMBC5's register updates; `q` is the 4 KB window (`addr >> 12`). */
  function Mbc5Write(id: Identity, r: BankRegs, q: int, b: bv8): (s: BankRegs)
    ensures s.mbc1RamMode == r.mbc1RamMode
    ensures s.ramEnable != r.ramEnable ==> q == 0 || q == 1
    ensures s.romBank != r.romBank ==> q == 2 || q == 3
    ensures r.romBank <= 0x1FF ==> s.romBank <= 0x1FF
    ensures s.ramBank != r.ramBank ==> (q == 4 || q == 5) && id.hasRam && s.ramBank <= 0x0F
  {
    if q == 0 || q == 1 then r.(ramEnable := b == 0x0A)
    else if q == 2 then r.(romBank := (r.romBank & 0xFF00) | b as bv16)
    else if q == 3 then r.(romBank := (r.romBank & 0x00FF) | ((b & 0x01) as bv16 << 8))
    else if (q == 4 || q == 5) && id.hasRam then r.(ramBank := (b & 0x0F) as bv16)
    else r
  }

  lemma Mbc5RomLowWrite(id: Identity, r: BankRegs, b: bv8)
    ensures Mbc5Write(id, r, 2, b) == r.(romBank := (r.romBank & 0xFF00) | b as bv16)
  {
  }

  /** The bank registers after a write whose first data byte is `b`. */
  function NextRegs(id: Identity, r: BankRegs, addr: int, b: bv8): (s: BankRegs)
    requires Aligned(addr)
    ensures id.kind == NoMbc || Window(addr) >= 4 ==> s == r
    ensures s.ramEnable != r.ramEnable ==> Window(addr) == 0
    ensures s.mbc1RamMode != r.mbc1RamMode ==> id.kind == Mbc1 && Window(addr) == 3
  {
    match id.kind
    case NoMbc => r
    case Mbc1 => Mbc1Write(r, Window(addr), b)
    case Mbc2 => Mbc2Write(id, r, Window(addr), b)
    case Mbc3 => Mbc3Write(id, r, Window(addr), b)
    case Mbc5 => Mbc5Write(id, r, addr / 0x1000, b)
  }

  /** Where a write copies its 32 bytes into RAM, if anywhere. MBC1, MBC2 and MBC3 do
      not check the bank against the RAM size; MBC5 does. */
  function RamWriteOffset(id: Identity, r: BankRegs, addr: int): (o: Option<nat>)
    requires Aligned(addr)
    ensures o.Some? ==> Window(addr) == 5 && id.hasRam
  {
    var w := Window(addr);
    var banked := addr - 0xA000 + r.ramBank as int * 0x2000;
    match id.kind
    case NoMbc =>
      if !id.hasRam then None
      else if id.ramCode == 0x01 then
        if 0xA000 <= addr <= 0xA7FF then Some(addr - 0xA000) else None
      else if 0xA000 <= addr <= 0xBFFF then Some(addr - 0xA000) else None
    case Mbc1 => if w == 5 && id.hasRam then Some(banked) else None
    case Mbc2 => if w == 5 && id.hasRam then Some(banked) else None
    case Mbc3 =>
      if w == 5 && id.hasRam && !(0x08 <= r.ramBank <= 0x0C) then Some(banked) else None
    case Mbc5 =>
      if w == 5 && id.hasRam && (r.ramBank as int) < id.numRamBanks then Some(banked) else None
  }

  /** A write lands inside the RAM buffer. The handlers rely on this without checking it. */
  predicate WriteFits(o: Option<nat>, ramLen: nat)
  {
    o.Some? ==> o.value + BlockSize <= ramLen
  }

  function RamAfterWrite(o: Option<nat>, ram: seq<bv8>, data: seq<bv8>): (r: seq<bv8>)
    requires WriteFits(o, |ram|) && |data| == BlockSize
    ensures |r| == |ram|
    ensures o.None? ==> r == ram
  {
    if o.Some? then Splice(ram, o.value, data) else ram
  }

  /** A RAM write replaces exactly the 32 bytes at its offset and keeps the rest of RAM. */
  lemma RamAfterWriteFrame(o: Option<nat>, ram: seq<bv8>, data: seq<bv8>)
    requires WriteFits(o, |ram|) && |data| == BlockSize && o.Some?
    ensures var r := RamAfterWrite(o, ram, data);
      r[o.value..o.value + BlockSize] == data &&
      r[..o.value] == ram[..o.value] && r[o.value + BlockSize..] == ram[o.value + BlockSize..]
  {
    var r := RamAfterWrite(o, ram, data);
    assert r[..o.value] == ram[..o.value];
    assert r[o.value + BlockSize..] == ram[o.value + BlockSize..];
  }

  /** What a write does to the MBC3 clock. */
  datatype TimerOp = NoTimerOp | StoreRegister(reg: nat) | Latch(on: bool)

  function TimerOpOf(id: Identity, r: BankRegs, addr: int, b: bv8): (op: TimerOp)
    requires Aligned(addr)
    ensures op.StoreRegister? ==> op.reg < 5
    ensures !op.NoTimerOp? ==> id.kind == Mbc3
  {
    if id.kind == Mbc3 && Window(addr) == 3 then Latch(b & 0x01 == 0x01)
    else if id.kind == Mbc3 && Window(addr) == 5 && id.hasRam && 0x08 <= r.ramBank <= 0x0C then
      StoreRegister((r.ramBank - 0x08) as nat)
    else NoTimerOp
  }

  function RtcAfterWrite(rtc: RtcState, op: TimerOp, b: bv8, now: int): (s: RtcState)
    requires WellFormed(rtc)
    requires op.StoreRegister? ==> op.reg < 5
    requires op == Latch(true) ==> ClockOk(rtc.last, now)
    ensures WellFormed(s)
  {
    match op
    case NoTimerOp => rtc
    case StoreRegister(i) => rtc.(live := rtc.live[i := b])
    case Latch(on) => LatchWrite(rtc, on, now)
  }

  /** MBC3's RAM window on a write: banked RAM, or a clock register when one is selected. */
  lemma Mbc3RamWindowWrite(id: Identity, r: BankRegs, addr: int, b: bv8)
    requires Aligned(addr) && id.kind == Mbc3 && Window(addr) == 5
    ensures RamWriteOffset(id, r, addr) ==
      if id.hasRam && !(0x08 <= r.ramBank <= 0x0C) then Some(addr - 0xA000 + r.ramBank as int * 0x2000) else None
    ensures TimerOpOf(id, r, addr, b) ==
      if id.hasRam && 0x08 <= r.ramBank <= 0x0C then StoreRegister((r.ramBank - 0x08) as nat) else NoTimerOp
  {
  }
}
