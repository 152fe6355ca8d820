/** Cartridge identity: what LoadCart decodes from ROM header bytes 0x147, 0x148 and
    0x149 before any RAM is touched, the size checks that can make loading fail, and
    the size of the RAM buffer that loading then allocates. */
module Header {
  import opened Wrappers
  import Trailer

  /** The cartridge families of the type table (GB_NORM, GB_MBC1, ..., GB_MMMO1). */
  datatype Family = GbNorm | GbMbc1 | GbMbc2 | GbMbc3 | GbMbc5 | GbMmm01

  /** One row of the cartridge-type table. */
  datatype CartType = CartType(family: Family, hasRam: bool, hasBattery: bool, hasTimer: bool, hasRumble: bool)

  /** The banking engines that have read/write handlers. */
  datatype MapperKind = NoMbc | Mbc1 | Mbc2 | Mbc3 | Mbc5

  /** Everything loading derives from the header and then keeps fixed. */
  datatype Identity = Identity(
    kind: MapperKind,
    hasRam: bool, hasBattery: bool, hasTimer: bool, hasRumble: bool,
    numRomBanks: nat,
    numRamBanks: nat,
    quarterBlocks: nat,
    ramCode: bv8)

  datatype LoadError = RomTooSmall | UnknownCartType | UnsupportedMapper | RomSizeMismatch

  /** The type codes the table accepts. */
  const KnownTypeCodes: set<bv8> :=
    {0x00, 0x01, 0x02, 0x03, 0x05, 0x06, 0x08, 0x09, 0x0B, 0x0C, 0x0D,
     0x0F, 0x10, 0x11, 0x12, 0x13, 0x19, 0x1A, 0x1B, 0x1C, 0x1D, 0x1E}

  /** The cartridge-type table keyed by header byte 0x147; None for a code it does not list. */
  function CartTypeOf(code: bv8): (r: Option<CartType>)
    ensures r.Some? <==> code in KnownTypeCodes
    ensures r.Some? && r.value.hasTimer ==> r.value.family == GbMbc3 && r.value.hasBattery
    ensures r.Some? && r.value.hasRumble ==> r.value.family == GbMbc5
    ensures r.Some? && r.value.family == GbMmm01 <==> code in {0x0B, 0x0C, 0x0D}
  {
    match code
    case 0x00 => Some(CartType(GbNorm, false, false, false, false))
    case 0x01 => Some(CartType(GbMbc1, false, false, false, false))
    case 0x02 => Some(CartType(GbMbc1, true, false, false, false))
    case 0x03 => Some(CartType(GbMbc1, true, true, false, false))
    case 0x05 => Some(CartType(GbMbc2, false, false, false, false))
    case 0x06 => Some(CartType(GbMbc2, false, true, false, false))
    case 0x08 => Some(CartType(GbNorm, true, false, false, false))
    case 0x09 => Some(CartType(GbNorm, true, true, false, false))
    case 0x0B => Some(CartType(GbMmm01, false, false, false, false))
    case 0x0C => Some(CartType(GbMmm01, true, false, false, false))
    case 0x0D => Some(CartType(GbMmm01, true, true, false, false))
    case 0x0F => Some(CartType(GbMbc3, false, true, true, false))
    case 0x10 => Some(CartType(GbMbc3, true, true, true, false))
    case 0x11 => Some(CartType(GbMbc3, false, false, false, false))
    case 0x12 => Some(CartType(GbMbc3, true, true, false, false))
    case 0x13 => Some(CartType(GbMbc3, true, true, false, false))
    case 0x19 => Some(CartType(GbMbc5, false, false, false, false))
    case 0x1A => Some(CartType(GbMbc5, true, false, false, false))
    case 0x1B => Some(CartType(GbMbc5, true, true, false, false))
    case 0x1C => Some(CartType(GbMbc5, false, false, false, true))
    case 0x1D => Some(CartType(GbMbc5, true, false, false, true))
    case 0x1E => Some(CartType(GbMbc5, true, true, false, true))
    case _ => None
  }

  /** The handler assignment: every family but MMM01 gets a banking engine. */
  function MapperFor(f: Family): (r: Option<MapperKind>)
    ensures r.None? <==> f == GbMmm01
  {
    match f
    case GbNorm => Some(NoMbc)
    case GbMbc1 => Some(Mbc1)
    case GbMbc2 => Some(Mbc2)
    case GbMbc3 => Some(Mbc3)
    case GbMbc5 => Some(Mbc5)
    case GbMmm01 => None
  }

  function Pow2(k: nat): (r: nat)
    ensures r >= 1
  {
    if k == 0 then 1 else 2 * Pow2(k - 1)
  }

  /** The ROM-size table keyed by header byte 0x148: a bank count, 2 when the code is not listed. */
  function RomBanksOf(code: bv8): (r: nat)
    ensures 2 <= r <= 128
    ensures code !in {0x01, 0x02, 0x03, 0x04, 0x05, 0x06, 0x52, 0x53, 0x54} ==> r == 2
  {
    match code
    case 0x01 => 4
    case 0x02 => 8
    case 0x03 => 16
    case 0x04 => 32
    case 0x05 => 64
    case 0x06 => 128
    case 0x52 => 72
    case 0x53 => 80
    case 0x54 => 96
    case _ => 2
  }

  /** The listed codes 0 to 6 double the bank count each step, from 2 banks (32 KB). */
  lemma RomBanksPowerOfTwo(code: bv8)
    requires code <= 0x06
    ensures RomBanksOf(code) == Pow2(code as nat + 1)
  {
    assert Pow2(4) == 16;
    assert Pow2(7) == 8 * Pow2(4);
  }

  /** The RAM-size table keyed by header byte 0x149: a count of 8 KB banks ... */
  function RamBanksOf(code: bv8): (r: nat)
    ensures r <= 16
    ensures r == 0 <==> code !in {0x01, 0x02, 0x03, 0x04, 0x05}
  {
    match code
    case 0x01 => 1
    case 0x02 => 1
    case 0x03 => 4
    case 0x04 => 16
    case 0x05 => 8
    case _ => 0
  }

  /** ... and a count of 2 KB quarter-blocks. */
  function QuarterBlocksOf(code: bv8): (r: nat)
    ensures r <= 64
    ensures r == 0 <==> RamBanksOf(code) == 0
  {
    match code
    case 0x01 => 1
    case 0x02 => 4
    case 0x03 => 16
    case 0x04 => 64
    case 0x05 => 32
    case _ => 0
  }

  /** The two RAM size conventions (banks of 0x2000 bytes, quarter-blocks of 0x800
      bytes) agree on every code except 1, where the quarter-block count is a quarter bank. */
  lemma SizeConventionsAgree(code: bv8)
    ensures code != 0x01 ==> QuarterBlocksOf(code) * 0x800 == RamBanksOf(code) * 0x2000
    ensures code == 0x01 ==> QuarterBlocksOf(code) * 0x800 == 0x800 && RamBanksOf(code) * 0x2000 == 0x2000
  {
  }

  /** LoadCart's decoding and its four ways to fail, in the order the code tests them:
      a file under 32 KB, a type code the table does not list, an MMM01 cartridge,
      and a file whose size is not 16 KB times the bank count. */
  function Identify(rom: seq<bv8>): (r: Result<Identity, LoadError>)
    ensures r == Failure(RomTooSmall) <==> |rom| < 0x8000
    ensures r == Failure(UnknownCartType) <==> |rom| >= 0x8000 && CartTypeOf(rom[0x147]).None?
    ensures r == Failure(UnsupportedMapper) <==>
      |rom| >= 0x8000 && CartTypeOf(rom[0x147]).Some? && CartTypeOf(rom[0x147]).value.family == GbMmm01
    ensures r == Failure(RomSizeMismatch) <==>
      |rom| >= 0x8000 && CartTypeOf(rom[0x147]).Some? && CartTypeOf(rom[0x147]).value.family != GbMmm01 &&
      |rom| != 0x4000 * RomBanksOf(rom[0x148])
    ensures r.Success? ==>
      var id := r.value;
      var t := CartTypeOf(rom[0x147]).value;
      |rom| >= 0x8000 && |rom| == 0x4000 * id.numRomBanks &&
      MapperFor(t.family) == Some(id.kind) &&
      id.hasRam == t.hasRam && id.hasBattery == t.hasBattery &&
      id.hasTimer == t.hasTimer && id.hasRumble == t.hasRumble &&
      id.numRomBanks == RomBanksOf(rom[0x148]) &&
      id.ramCode == rom[0x149] &&
      id.numRamBanks == RamBanksOf(rom[0x149]) &&
      id.quarterBlocks == QuarterBlocksOf(rom[0x149])
  {
    if |rom| < 0x8000 then Failure(RomTooSmall)
    else
      match CartTypeOf(rom[0x147])
      case None => Failure(UnknownCartType)
      case Some(t) =>
        match MapperFor(t.family)
        case None => Failure(UnsupportedMapper)
        case Some(kind) =>
          var banks := RomBanksOf(rom[0x148]);
          if |rom| != 0x4000 * banks then Failure(RomSizeMismatch)
          else
            Success(Identity(kind, t.hasRam, t.hasBattery, t.hasTimer, t.hasRumble,
                             banks, RamBanksOf(rom[0x149]), QuarterBlocksOf(rom[0x149]), rom[0x149]))
  }

  /** The tables' answers for an identity, as Identify produces them. */
  predicate Consistent(id: Identity)
  {
    2 <= id.numRomBanks &&
    id.numRamBanks == RamBanksOf(id.ramCode) &&
    id.quarterBlocks == QuarterBlocksOf(id.ramCode) &&
    (id.hasTimer ==> id.kind == Mbc3 && id.hasBattery)
  }

  lemma IdentifyConsistent(rom: seq<bv8>)
    requires Identify(rom).Success?
    ensures Consistent(Identify(rom).value)
  {
  }

  /** The RAM buffer LoadCart allocates: none without RAM; for a battery cart,
      quarter-blocks times 0x800 plus the RTC trailer when there is also a timer;
      otherwise banks times 0x2000. */
  function RamBufferSize(id: Identity): (r: nat)
    ensures !id.hasRam ==> r == 0
    ensures id.hasRam && id.hasBattery && id.hasTimer ==> r == id.quarterBlocks * 0x800 + Trailer.TrailerSize
    ensures id.hasRam && id.hasBattery && !id.hasTimer ==> r == id.quarterBlocks * 0x800
    ensures id.hasRam && !id.hasBattery ==> r == id.numRamBanks * 0x2000
  {
    if !id.hasRam then 0
    else if id.hasBattery then id.quarterBlocks * 0x800 + (if id.hasTimer then Trailer.TrailerSize else 0)
    else id.numRamBanks * 0x2000
  }

  /** The quarter-block count SaveCart recomputes from header byte 0x149. Its switch
      lists codes 1 to 4 only, so code 5 gives 0. */
  function SaveQuarterBlocks(code: bv8): (r: nat)
    ensures code != 0x05 ==> r == QuarterBlocksOf(code)
    ensures code == 0x05 ==> r == 0
  {
    match code
    case 0x01 => 1
    case 0x02 => 4
    case 0x03 => 16
    case 0x04 => 64
    case _ => 0
  }

  /** Where SaveCart writes the trailer and where LoadCart reads it differ exactly for code 5. */
  lemma TrailerOffsetsDisagreeOnlyForCode5(code: bv8)
    ensures SaveQuarterBlocks(code) * 0x800 != QuarterBlocksOf(code) * 0x800 <==> code == 0x05
  {
  }
}
