# Game Boy cartridge model (nrage-input `GBCart.cpp`)

This project models in Dafny the Game Boy cartridge emulation that the N64 Transfer Pak
plugin uses to let a game read and write a Game Boy cartridge. The model
covers four parts of `GBCart.cpp`:

- **Header decoding and load-time sizing** (module `Header`). These are `LoadCart`'s three
  header tables:
  - cartridge type byte 0x147 gives the mapper family, RAM, battery, timer and rumble;
  - ROM size byte 0x148 gives the bank count, defaulting to 2;
  - RAM size byte 0x149 gives the bank count and the 2 KB quarter-block count.

  `Identify` adds the two ROM size checks and the MMM01/unknown-type rejection.
  `RamBufferSize` gives the size of the RAM buffer that `LoadCart` allocates.
- **The banking engine** for the five read/write handler pairs: no mapper, MBC1, MBC2, MBC3
  and MBC5.
  - Module `Banking` states what each handler does as pure functions of the identity and
    the bank registers:
    - `ReadSource` says where a 32-byte read comes from;
    - `NextRegs` gives the new bank registers after a write;
    - `RamWriteOffset` says where a RAM write lands;
    - `TimerOpOf` gives what a write does to the clock.
  - Module `BankingProperties` proves what those functions promise.
  - Module `Cartridge` holds the class `Cart`. It has the cartridge's fields: bank registers,
    RAM enable, MBC1 banking mode, the RTC arrays `timerData`/`latchedTimerData`, the latch
    flag and the time of the last update. Each handler is an imperative method over
    `Cart`, and each method is proved against the pure functions.
- **The MBC3 real-time clock** (module `Rtc` and the matching `Cart` methods):
  - `UpdateRTC`'s register arithmetic, as `Advance` and `Tick`;
  - the latch register, as `LatchWrite`;
  - the clock window of the RAM area.
- **Persistence decisions** (modules `Persistence`, `Trailer`, `SaveFile`):
  - `ClearData`'s power-on fill pattern;
  - the read-only and mapping-failed load fallbacks;
  - the Goomba container's payload-size decision;
  - the RTC trailer that `SaveCart` writes after the RAM image and `LoadCart` reads back.

Bytes are `bv8` and bank registers are `bv16`: the C `int` fields only ever see masks and
shifts. Addresses are `int`, and `Aligned` requires them to be 32-byte aligned and below 0x10000.
The wall clock `time(NULL)` becomes a parameter `now`. The file contents and the Goomba
container lookup become parameters of the persistence operations.

In three places the code differs from what one might expect of MBC3 hardware or of a symmetric save format. The model follows the code:
- A day-counter wrap past 511 sets bit 7 of the control register but does not clear bit 0.
  So 510 days plus 3 reads back as 257 days, not 1 (`Rtc.DayWrapKeepsHighBit`).
- `SaveCart`'s quarter-block switch has no case for RAM code 0x05. So a 64 KB save writes its
  clock trailer at offset 0, while `LoadCart` reads it after the RAM image
  (`Header.TrailerOffsetsDisagreeOnlyForCode5`, `SaveFile.Code5SaveMisplacesTrailer`).
- An MBC3 latch write with bit 0 clear still copies the live registers into the snapshot
  (`Rtc.LatchWriteEffect`).

## Model

| member | source | states |
|---|---|---|
| `Header.CartTypeOf` | GBCart.cpp:237-397 | A type code is known exactly when it is one of the table's codes. A timer implies MBC3 with a battery, and rumble implies MBC5. MMM01 is exactly codes 0x0B-0x0D. |
| `Header.MapperFor` | GBCart.cpp:400-427 | Every family has a read/write handler pair except MMM01, which is rejected. |
| `Header.RomBanksOf` | GBCart.cpp:430-459 | The ROM bank count lies between 2 and 128. Every code outside the table, including 0x00, gives the default of 2 banks. |
| `Header.RomBanksPowerOfTwo` | GBCart.cpp:430-459 | ROM size codes 0x00-0x06 mean 2^(code+1) banks of 16 KB. |
| `Header.RamBanksOf` | GBCart.cpp:470-492 | The RAM bank count is at most 16. It is zero exactly for codes outside 0x01-0x05. |
| `Header.QuarterBlocksOf` | GBCart.cpp:470-492 | The quarter-block count is at most 64. It is zero exactly when the bank count is zero. |
| `Header.SizeConventionsAgree` | GBCart.cpp:470-492 | The quarter-block size and the bank size of the RAM agree for every code except 0x01. There, 2 KB of quarter-blocks face one 8 KB bank. |
| `Header.Identify` | GBCart.cpp:225-467 | Each of the four load errors arises exactly under its own condition: too small, unknown type, unsupported mapper, size mismatch. On success the ROM is exactly 0x4000 per bank, and every identity field is the table's answer for the header bytes. |
| `Header.IdentifyConsistent` | GBCart.cpp:430-492 | Every identity LoadCart accepts satisfies the size and flag invariants that the handlers rely on. |
| `Header.RamBufferSize` | GBCart.cpp:506-597 | Without RAM the buffer is empty. With a battery it holds the quarter-blocks, plus the clock trailer on a timer cart. Without a battery it holds the full banks. |
| `Header.SaveQuarterBlocks` | GBCart.cpp:1084-1097 | SaveCart's quarter-block count equals LoadCart's for every code but 0x05, for which it is 0. |
| `Header.TrailerOffsetsDisagreeOnlyForCode5` | GBCart.cpp:1084-1097 | The save and load offsets of the clock trailer differ exactly for RAM code 0x05. |
| `Rtc.DayCount` | GBCart.cpp:58-59 | The 9-bit day count, from the day register and bit 0 of the control register, is at most 511. |
| `Rtc.Advance` | GBCart.cpp:48-68 | UpdateRTC's register arithmetic keeps five registers. |
| `Rtc.Control` | GBCart.cpp:61-68 | Bit 7 of the new control byte is set exactly when it was set or the days passed 511. Bit 0 is set when the masked day count exceeds 255 and is kept otherwise. Bits 1-6 are unchanged. |
| `Rtc.AdvanceZero` | GBCart.cpp:48-70 | With no elapsed time, no register changes. |
| `Rtc.AdvanceClosedForm` | GBCart.cpp:51-59 | Seconds, minutes and hours each add their own share of the elapsed time (mod 60, 60, 24), wrapping at 256 and never carrying into the next register. The day register becomes the new day count mod 256. |
| `Rtc.AdvanceControl` | GBCart.cpp:58-68 | Bit 7 ends up set exactly when it was set or the days passed 511, so it is never cleared. Bit 0 is set when the masked day count exceeds 255 and is otherwise left as it was. The other bits are unchanged. |
| `Rtc.ControlLowBit` | GBCart.cpp:61-68 | For a 9-bit day count, bit 0 of the new control byte is set exactly when the days exceed 255 or it was already set. |
| `Rtc.DayCountExact` | GBCart.cpp:58-68 | While no overflow happens, the day count read back grows by exactly the elapsed whole days. |
| `Rtc.DayWrapKeepsHighBit` | GBCart.cpp:61-68 | 510 days plus 3 days give day register 1 and control 0x81, so the counter reads 257 rather than 1. |
| `Rtc.AdvanceOneHourOneMinuteOneSecond` | GBCart.cpp:51-55 | 3661 seconds add one to each of seconds, minutes and hours. |
| `Rtc.SecondsDoNotCarry` | GBCart.cpp:51 | 59 s plus one second reads 60 s, with no carry into the minutes. |
| `Rtc.Tick` | GBCart.cpp:44-83 | An update stamps the clock with `now` and leaves the snapshot and the latch flag unchanged. |
| `Rtc.TickIdempotent` | GBCart.cpp:44-83 | Updating twice at the same instant is the same as updating once. |
| `Rtc.LatchWrite` | GBCart.cpp:948-961 | A latch write keeps the clock state well formed. |
| `Rtc.LatchWriteEffect` | GBCart.cpp:948-961 | The latch flag becomes bit 0 of the write. With bit 0 set, the live registers advance to `now` and the snapshot holds the new registers 0-3 with the control byte from before the update. With bit 0 clear, the snapshot takes all five live registers and the clock is not advanced. |
| `Rtc.UnlatchShowsLive` | GBCart.cpp:948-961 | After a latch-disable write, every register reads back its live value. |
| `Rtc.ToTrailer` | GBCart.cpp:1099-1118 | The clock state that SaveCart packs is a well-formed trailer record. |
| `Trailer.Serialise` | GBCart.cpp:1099-1118 | The trailer is 18 bytes: the five live registers, then the five latched ones, then the timestamp. |
| `Trailer.Deserialise` | GBCart.cpp:571-586 | Reading 18 bytes gives a well-formed record whose registers are the first ten bytes. |
| `Trailer.DeserialiseSerialise` | GBCart.cpp:571-586 | Reading back a written trailer gives the same record. |
| `Trailer.SerialiseDeserialise` | GBCart.cpp:1099-1118 | With the 18-byte layout chosen here, writing back a trailer that was read gives the same bytes. |
| `Trailer.DecodeEncodeTime` | GBCart.cpp:1099-1118 | Every 64-bit time value survives the 8-byte encoding. |
| `Trailer.EncodeDecodeTime` | GBCart.cpp:571-586 | Every 8-byte timestamp field survives decoding and re-encoding. |
| `SaveFile.StoredTrailer` | GBCart.cpp:567-586 | LoadCart takes the trailer from the bytes after the quarter-block RAM image. |
| `SaveFile.TrailerPresent` | GBCart.cpp:571 | On a cart with a clock trailer, LoadCart reads the trailer exactly when the file is at least as large as the RAM buffer. |
| `SaveFile.Restore` | GBCart.cpp:571-586 | Restoring a trailer gives a well-formed clock whose latch flag is untouched. |
| `SaveFile.SavedRam` | GBCart.cpp:1075-1121 | Saving keeps the buffer's length. It changes nothing for a Goomba-bound cart or one without a clock trailer. |
| `SaveFile.SaveThenLoadRestoresClock` | GBCart.cpp:1099-1118 | For every RAM code but 0x05, loading the trailer that was saved restores the saved clock exactly, except for the latch flag. |
| `SaveFile.SaveKeepsRamRegion` | GBCart.cpp:1099-1118 | Saving the trailer leaves the RAM image in front of it unchanged. |
| `SaveFile.Code5SaveMisplacesTrailer` | GBCart.cpp:1084-1097 | For RAM code 0x05 the trailer lands on the first 18 bytes of RAM, and the trailer that a later load reads is unchanged. |
| `Persistence.PowerOnPattern` | GBCart.cpp:1161-1172 | Byte i of the pattern is 0xFF exactly when i / 128 is odd. |
| `Persistence.PowerOnByte` | GBCart.cpp:1161-1172 | ClearData's test of bit 7 of the index makes byte i 0xFF exactly when i / 128 is odd. |
| `Persistence.PatternPrefix` | GBCart.cpp:1161-1172 | Clearing fewer bytes gives a prefix of clearing more. |
| `Persistence.PatternBlocks` | GBCart.cpp:1161-1172 | Bytes in the same 128-byte block are equal, and neighbouring blocks differ. |
| `Persistence.ClearData` | GBCart.cpp:1161-1172 | Exactly the first `length` bytes become the pattern, and the rest of the array is untouched. |
| `Persistence.ReadOnlyImage` | GBCart.cpp:506-534 | A file at least as long as the buffer gives its prefix. A shorter file gives its bytes followed by the rest of the pattern. |
| `Persistence.ReadOnlyFallback` | GBCart.cpp:509-529 | The buffer ends up as the read-only image of the file. |
| `Persistence.HeapImage` | GBCart.cpp:545-564 | A file at least as long as the buffer gives its prefix. A shorter file gives the bare pattern. |
| `Persistence.HeapFallback` | GBCart.cpp:545-564 | The buffer is cleared and the RAM-error warning raised exactly on a short read, and the buffer ends up as the heap image. |
| `Persistence.FallbacksCompared` | GBCart.cpp:506-564 | The fallbacks agree on a long enough file. On a short file only the read-only one keeps the bytes read. |
| `Persistence.GoombaSizeNeeded` | GBCart.cpp:106 | The expected size is the RAM region, plus a trailer exactly when the cart has a timer and a battery. |
| `Persistence.GoombaSizeIsBufferSize` | GBCart.cpp:106 | The size the Goomba check expects equals the RAM buffer size for every battery cart with RAM. |
| `Persistence.GoombaImage` | GBCart.cpp:110-126 | No entry or an oversized payload gives the pattern. A failed extraction leaves the buffer unchanged. A fitting payload fills the prefix and leaves the tail unchanged. |
| `Persistence.GoombaLoad` | GBCart.cpp:91-130 | The buffer becomes the Goomba image. The cart is bound to the container exactly when a payload was extracted and a writable name was given. The warning is raised exactly for no entry or an oversized payload. |
| `Banking.ReadSource` | GBCart.cpp:606-1024 | A ROM read always lies inside the ROM image. A clock read names one of the five registers, and only on MBC3. A read leaves the output untouched exactly in windows 4, 6 and 7. |
| `Banking.RomRead` | GBCart.cpp:676-694 | A ROM-window read comes from the ROM or is zeros, and it is zeros exactly when the banked window selects a bank past the end of the ROM. |
| `Banking.BankedRamRead` | GBCart.cpp:695-708 | A RAM-window read through a mapper comes from RAM or is zeros, and it is zeros exactly when there is no RAM or the bank is out of range. |
| `Banking.Block` | GBCart.cpp:606-1024 | The 32 delivered bytes are the ROM or RAM bytes at the offset, all zeros, one clock register (the snapshot's when latched) repeated, or the old buffer. |
| `Banking.RtcAfterRead` | GBCart.cpp:883-892 | A read keeps the clock state well formed. |
| `Banking.Mbc1Write` | GBCart.cpp:717-787 | Only window 0 changes the RAM enable, setting it exactly for 0x0A. Only window 3 changes the mode. Window 1 always leaves non-zero low ROM bits. Writes above 0x7FFF change no register. |
| `Banking.Mbc1Mode` | GBCart.cpp:746-770 | The mode becomes the requested one, and the enable and the low five ROM bits are kept. Requesting the mode in force changes nothing. |
| `Banking.Mbc2Write` | GBCart.cpp:826-858 | Each register changes only through its own window. The ROM bank after a select is 1-15, and the RAM bank changes only on a cart with RAM, to at most 7. |
| `Banking.Mbc3Write` | GBCart.cpp:921-979 | Each register changes only through its own window. The ROM bank after a select is 1-127. The RAM bank changes only on a cart with RAM, to 0-3 or, on a timer cart, to a clock register 0x08-0x0C. |
| `Banking.Mbc5Write` | GBCart.cpp:1027-1073 | The enable changes only below 0x2000 and the ROM bank only in 0x2000-0x3FFF, staying within 9 bits. The RAM bank changes only in 0x4000-0x5FFF on a cart with RAM, to at most 15. |
| `Banking.NextRegs` | GBCart.cpp:645-1073 | A cart without a mapper, or a write at 0x8000 or above, changes no register. Only window 0 changes the RAM enable, and only MBC1 window 3 changes the banking mode. |
| `Banking.RamWriteOffset` | GBCart.cpp:645-1073 | A write reaches RAM only in window 5 and only on a cart with RAM. |
| `Banking.RamAfterWrite` | GBCart.cpp:645-1073 | A write keeps the RAM size and changes nothing when it has no target. |
| `Banking.RamAfterWriteFrame` | GBCart.cpp:771-781 | A targeted write replaces exactly the 32 bytes at its offset with the data and keeps all other RAM bytes. |
| `Banking.TimerOpOf` | GBCart.cpp:948-973 | Only MBC3 writes touch the clock, and a register store names one of the five registers. |
| `Banking.RtcAfterWrite` | GBCart.cpp:948-973 | A write keeps the clock state well formed. |
| `BankingProperties.FixedRomWindow` | GBCart.cpp:676-694 | Under every mapper, a read below 0x4000 comes from the same ROM offset. |
| `BankingProperties.BankedRomWindow` | GBCart.cpp:676-694 | A banked-ROM read gives zeros exactly when the bank is at least the bank count. Otherwise it comes from the offset inside the selected bank. |
| `BankingProperties.FlatRomWithoutMapper` | GBCart.cpp:608-616 | Without a mapper the whole 32 KB ROM is read flat. |
| `BankingProperties.RomReadDelivers` | GBCart.cpp:676-694 | A read below 0x4000 returns exactly the 32 ROM bytes at the address and leaves the clock untouched. |
| `BankingProperties.Mbc1RomSelect` | GBCart.cpp:725-734 | An MBC1 ROM-select write sets the low 5 bits to the data's, or 1 if those are 0. It keeps bits 5-6 and changes no other register. |
| `BankingProperties.Mbc1QuirkExamples` | GBCart.cpp:725-734 | Writing 0 to banks 0x00, 0x20, 0x40 and 0x60 selects 0x01, 0x21, 0x41 and 0x61. |
| `BankingProperties.Mbc1InvReset` | GBCart.cpp:203-206 | The load reset satisfies the MBC1 register invariant. |
| `BankingProperties.Mbc1WritePreservesInv` | GBCart.cpp:717-787 | Every MBC1 register write preserves the invariant: bank at most 0x7F with non-zero low bits, RAM bank at most 3, bank 0 outside RAM mode, ROM bank at most 0x1F in RAM mode. |
| `BankingProperties.Mbc1RomLowKeepsInv` | GBCart.cpp:725-734 | A ROM-select write preserves the MBC1 invariant. |
| `BankingProperties.Mbc1UpperKeepsInv` | GBCart.cpp:735-745 | An upper-bits write preserves the MBC1 invariant. |
| `BankingProperties.Mbc1ModeKeepsInv` | GBCart.cpp:746-770 | A mode write preserves the MBC1 invariant. |
| `BankingProperties.Mbc1Reachable` | GBCart.cpp:717-787 | Any sequence of MBC1 writes from a state meeting the invariant keeps it. |
| `BankingProperties.Mbc1EnterRamMode` | GBCart.cpp:749-758 | Entering RAM mode moves ROM bits 5-6 into the RAM bank and clears them from the ROM bank. |
| `BankingProperties.Mbc1LeaveRamMode` | GBCart.cpp:759-768 | Leaving RAM mode restores ROM bits 5-6 from the RAM bank and resets the RAM bank to 0. |
| `BankingProperties.Mbc1ToggleRoundTrip` | GBCart.cpp:749-768 | Entering and then leaving RAM mode restores the original ROM bank, and the RAM bank ends up 0. |
| `BankingProperties.Mbc1SameModeNoChange` | GBCart.cpp:746-770 | Writing the mode already in force changes nothing. |
| `BankingProperties.Mbc1UpperBits` | GBCart.cpp:735-745 | In RAM mode the upper-bits write sets only the RAM bank. Otherwise it replaces ROM bits 5-6 and keeps the low bits. |
| `BankingProperties.Mbc2RomSelect` | GBCart.cpp:834-840 | MBC2 selects bank data & 0x0F, with 0 forced to 1. |
| `BankingProperties.Mbc3RomSelect` | GBCart.cpp:931-937 | MBC3 selects bank data & 0x7F, with 0 forced to 1. |
| `BankingProperties.NeverBankZero` | GBCart.cpp:826-858 | On MBC2 (and, by the same lemma, MBC3), no sequence of writes selects ROM bank 0. |
| `BankingProperties.Mbc5RomSelect` | GBCart.cpp:1036-1047 | A 0x2000-0x2FFF write replaces only the low 8 bits of the MBC5 bank, and a 0x3000-0x3FFF write replaces only bit 8. |
| `BankingProperties.Mbc5LowBits` | GBCart.cpp:1036-1041 | For a 9-bit bank, replacing the low byte keeps bit 8 and stays within 9 bits. |
| `BankingProperties.Mbc5HighBit` | GBCart.cpp:1042-1047 | The high write sets bit 8 from bit 0 of the data and keeps the low byte. |
| `BankingProperties.Mbc5BankZeroSelectable` | GBCart.cpp:1036-1041 | MBC5 can select ROM bank 0. |
| `BankingProperties.Mbc5Scenario` | GBCart.cpp:986-1047 | With 16 banks, writing 0x05 at 0x2000 and then 0x00 at 0x3000 selects bank 5. A read at 0x4000 then comes from ROM offset 0x14000. |
| `BankingProperties.RamFaultsReadZero` | GBCart.cpp:1005-1018 | On MBC1, MBC3 and MBC5, a RAM read with no RAM or an out-of-range bank gives zeros. |
| `BankingProperties.BankedRamReads` | GBCart.cpp:695-708 | Otherwise a RAM read comes from the offset inside the selected RAM bank. |
| `BankingProperties.Mbc5OutOfRangeWriteIgnored` | GBCart.cpp:1055-1067 | An MBC5 RAM write to an out-of-range bank changes neither RAM, registers nor clock. |
| `BankingProperties.Mbc2ReadGate` | GBCart.cpp:809-816 | An MBC2 RAM read needs both RAM and the enable flag, and otherwise gives zeros. |
| `BankingProperties.QuarterRamWithoutMapper` | GBCart.cpp:617-636 | A cart without a mapper and with a 2 KB RAM reads zeros and ignores writes from 0xA800 up. Below that it reads and writes the RAM directly. |
| `BankingProperties.InvalidWindowsRead` | GBCart.cpp:606-1024 | A read in windows 4, 6 or 7 leaves both the output block and the clock untouched. |
| `BankingProperties.InvalidWindowsWrite` | GBCart.cpp:645-1073 | A write in windows 4, 6 or 7 changes neither registers, RAM nor clock. |
| `BankingProperties.NoMbcHasNoRegisters` | GBCart.cpp:645-669 | Without a mapper, no write changes a bank register or the clock. |
| `BankingProperties.Mbc3RamSelect` | GBCart.cpp:938-947 | An MBC3 RAM-bank write selects a clock register 0x08-0x0C only on a timer cart. Otherwise it selects data & 0x03, and nothing without RAM. |
| `BankingProperties.Mbc3InvReset` | GBCart.cpp:203-206 | The load reset satisfies the MBC3 register invariant. |
| `BankingProperties.Mbc3Reachable` | GBCart.cpp:921-979 | Any sequence of MBC3 writes keeps two things: a non-zero ROM bank, and a RAM bank that is 0-3 or a clock register on a timer cart. |
| `BankingProperties.Mbc3ClockRead` | GBCart.cpp:883-892 | A clock read fills all 32 bytes with one register: the snapshot's when latched, and otherwise the live value after the update. Only the unlatched read updates the clock. |
| `BankingProperties.Mbc3ClockWrite` | GBCart.cpp:962-973 | A clock-register write stores only the first data byte in that register. It writes no RAM and changes nothing else. |
| `Cartridge.CopyIn` | GBCart.cpp:771-781 | Copying a block into RAM replaces exactly its 32 bytes at the offset. |
| `Cartridge.RolloverControl` | GBCart.cpp:61-68 | The in-place control-byte update yields the control byte of the specification. |
| `Cartridge.AddTimeOfDay` | GBCart.cpp:48-56 | Seconds, minutes and hours advance separately, and the elapsed whole days are returned. |
| `Cartridge.AddDays` | GBCart.cpp:58-68 | The day and control registers take the new day count, and the time of day is unchanged. |
| `Cartridge.AdvanceRegistersInPlace` | GBCart.cpp:48-68 | The live register array ends up as the specification's advanced registers. |
| `Cartridge.Cart.Load` | GBCart.cpp:203-206 | A loaded cart has the reset bank registers, RAM disabled, MBC1 ROM mode, zeroed clock registers and the latch cleared. |
| `Cartridge.Cart.UpdateRtc` | GBCart.cpp:44-83 | The clock becomes the specification's update at `now`. |
| `Cartridge.Cart.ReadRomWindow` | GBCart.cpp:867-881 | A mapper's ROM-window read gives the banked-ROM block and leaves the clock unchanged. |
| `Cartridge.Cart.ReadBankedRam` | GBCart.cpp:894-911 | A banked-RAM read gives the block from the selected bank, or zeros, and leaves the clock unchanged. |
| `Cartridge.Cart.ReadNorm` | GBCart.cpp:606-642 | The output block is the one ReadSource designates for a cart without a mapper. |
| `Cartridge.Cart.ReadMbc1` | GBCart.cpp:672-714 | The output block is the one ReadSource designates for MBC1. |
| `Cartridge.Cart.ReadMbc2` | GBCart.cpp:790-823 | The output block is the one ReadSource designates for MBC2. |
| `Cartridge.Cart.ReadMbc3` | GBCart.cpp:861-918 | The output block and the new clock are the ones ReadSource and RtcAfterRead give for MBC3. |
| `Cartridge.Cart.ReadMbc3Ram` | GBCart.cpp:883-911 | The MBC3 RAM-window read agrees with ReadSource and RtcAfterRead. |
| `Cartridge.Cart.ReadClockRegister` | GBCart.cpp:883-892 | A clock read fills the block from the visible register after ticking when unlatched. |
| `Cartridge.Cart.ReadMbc5` | GBCart.cpp:982-1024 | The output block is the one ReadSource designates for MBC5. |
| `Cartridge.Cart.Read` | GBCart.cpp:400-427 | Dispatching on the mapper gives ReadSource's block and RtcAfterRead's clock. |
| `Cartridge.Cart.WriteNorm` | GBCart.cpp:645-669 | RAM becomes the specification's RAM after the write. |
| `Cartridge.Cart.Mbc1SelectRomLow` | GBCart.cpp:725-734 | The registers become the MBC1 ROM-select result. |
| `Cartridge.Cart.Mbc1SelectUpper` | GBCart.cpp:735-745 | The registers become the MBC1 upper-bits result. |
| `Cartridge.Cart.Mbc1SelectMode` | GBCart.cpp:746-770 | The registers become the mode-write result. |
| `Cartridge.Cart.Mbc1EnterRamMode` | GBCart.cpp:749-758 | Entering RAM mode moves ROM bits 5-6 into the RAM bank. |
| `Cartridge.Cart.Mbc1LeaveRamMode` | GBCart.cpp:759-768 | Leaving RAM mode restores ROM bits 5-6 from the RAM bank and clears it. |
| `Cartridge.Cart.WriteMbc1` | GBCart.cpp:717-787 | Registers and RAM become NextRegs and RamAfterWrite for MBC1. |
| `Cartridge.Cart.WriteMbc2` | GBCart.cpp:826-858 | Registers and RAM become NextRegs and RamAfterWrite for MBC2. |
| `Cartridge.Cart.Mbc2SetRegister` | GBCart.cpp:830-846 | The registers become the MBC2 register-write result. |
| `Cartridge.Cart.LatchRegisters` | GBCart.cpp:948-961 | The clock becomes the specification's latch-write result. |
| `Cartridge.Cart.SnapshotTimeOfDay` | GBCart.cpp:953-954 | The snapshot takes live registers 0-3 and keeps its control byte. |
| `Cartridge.Cart.WriteMbc3` | GBCart.cpp:921-979 | Registers, RAM and clock become NextRegs, RamAfterWrite and RtcAfterWrite for MBC3. |
| `Cartridge.Cart.Mbc3SetRegister` | GBCart.cpp:927-947 | The registers become the MBC3 register-write result. |
| `Cartridge.Cart.WriteMbc3Ram` | GBCart.cpp:962-973 | An MBC3 RAM-window write changes RAM and clock as RamAfterWrite and RtcAfterWrite say. |
| `Cartridge.Cart.StoreRamOrClock` | GBCart.cpp:962-973 | The RAM-window write goes to banked RAM or to the selected clock register, as the bank selects. |
| `Cartridge.Cart.WriteBankedRam` | GBCart.cpp:771-781 | The block replaces exactly its 32 bytes of RAM, and the clock is unchanged. |
| `Cartridge.Cart.StoreClockRegister` | GBCart.cpp:964-967 | Only the chosen live clock register changes. |
| `Cartridge.Cart.Mbc5SelectRomLow` | GBCart.cpp:1036-1041 | The registers become the MBC5 low-byte select result. |
| `Cartridge.Cart.Mbc5SelectRomHigh` | GBCart.cpp:1042-1047 | The registers become the MBC5 bit-8 select result. |
| `Cartridge.Cart.WriteMbc5` | GBCart.cpp:1027-1073 | Registers and RAM become NextRegs and RamAfterWrite for MBC5. |
| `Cartridge.Cart.WriteMbc5Ram` | GBCart.cpp:1055-1067 | An MBC5 RAM write lands in the selected bank, or nowhere when the bank is out of range. |
| `Cartridge.Cart.Write` | GBCart.cpp:400-427 | Dispatching on the mapper gives NextRegs' registers, RamAfterWrite's RAM and RtcAfterWrite's clock. |
| `Cartridge.Cart.RestoreClock` | GBCart.cpp:567-590 | With a trailer present, the clock is restored from it and then updated to `now`. Otherwise it is unchanged. |
| `Cartridge.Cart.Save` | GBCart.cpp:1075-1121 | The RAM buffer becomes the saved image with the clock trailer. |

## Left out

- Win32 file handling (`CreateFile`, `CreateFileMapping`, `MapViewOfFile`, `ReadFile`, `WriteFile`, `FlushViewOfFile`, `CloseHandle`): a file is a byte sequence parameter and the RAM buffer is an array that is already allocated.
- `UnloadCart` (GBCart.cpp:1123-1156): it only releases handles and buffers.
- The goombasav codec (`stateheader_for`, `goomba_extract`, `goomba_new_sav`): it is foreign code. Its outcome is the parameter `GoombaLookup`, and only the size decision around it is modelled.
- `UpdateGoombaFile` (GBCart.cpp:132-192) and the Goomba branch of `SaveCart`: both repack the container through the codec and the file system. `SavedRam` leaves a Goomba-bound buffer unchanged.
- `GoombaImage`: an extraction failure leaves the buffer as it was allocated. In the C code the freshly allocated buffer is uninitialised.
- The recognition of the Goomba container by its magic number, and the choice between mapped and heap buffers: they are I/O decisions. The fallbacks are modelled as the operations they run.
- The read-only path's early return when the file cannot be opened at all (GBCart.cpp:530-534).
- `MessageBoxA`, `ErrorMessage`, `WarningMessage` and `DebugWriteA` tracing. The RAM-error warnings of the short-read and Goomba paths are boolean results.
- The read-only warning (`IDS_DLG_TPAK_READONLY`), which LoadCart raises after every read-only load and after a full read in the mapping-failed path (GBCart.cpp:528, 562): `ReadOnlyFallback` and `HeapFallback` do not report it.
- `time(NULL)`: passed in as `now`. `ClockOk` requires `now` at or after the last update and less than 2^31 seconds later. The C signed modulo of a negative difference and the `int` overflow of the day count are not modelled.
- `RestoreClock`: the file size is a parameter. For a Goomba-bound cart, `LoadCart` passes the extracted size instead of the file size.
- `ReadTDF`/`WriteTDF` (GBCart.cpp:36-42): empty stubs.
- The byte layout of `gbCartRTC`: it is declared in GBCart.h, which is not part of this model. The trailer is modelled as ten register bytes followed by a little-endian 64-bit timestamp, 18 bytes in all. The 18-byte size and the byte-level round trip `Trailer.SerialiseDeserialise` belong to this chosen layout. The `(BYTE)` casts in LoadCart suggest wider fields. With wider fields a load keeps only the low byte of each register field, so writing a loaded trailer back need not reproduce the bytes that were read.
- MMM01 banking: `LoadCart` rejects it (GBCart.cpp:421-426), and so does `Identify`.
- Buffer overruns: the MBC1, MBC2 and MBC3 RAM writes do no bank bounds check (GBCart.cpp:775, 850, 970). A 2 KB RAM cart reached through a mapper can also read past its buffer, and so can a mapper-less RAM cart (type 0x08 or 0x09) whose header declares no RAM size (RAM code 0x00), because its buffer is empty (GBCart.cpp:497-597, 627). These become the preconditions `WriteFits` and `Readable` on the RAM length; no check is added to the handlers.
- `Cartridge.Cart.Load`: it takes the identity and the filled RAM buffer as inputs. `LoadCart` does not set `TimerData`, `LatchedTimerData` or `timerLastUpdate` before a trailer is read, so their initial values come from the caller; the model starts them at zero.
