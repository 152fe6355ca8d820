/** How LoadCart fills the RAM buffer of a battery cartridge before the banking code
    sees it: the power-on pattern of ClearData, the read-only and short-read fallbacks,
    and the size decision for a Goomba container's payload. The file contents and the
    container lookup are parameters; no file is opened here. */
module Persistence {
  import opened Bytes
  import opened Header
  import Trailer

  /** Byte `i` of the power-on pattern: ClearData's test of bit 7 of its `int` index. */
  function PowerOnByte(i: nat): (v: bv8)
    requires i < 0x8000_0000
    ensures v == (if i / 128 % 2 == 1 then 0xFF else 0x00)
  {
    if (i as bv32) & 0x80 != 0x80 then 0x00 else 0xFF
  }

  /** The first `n` bytes of the power-on pattern: alternating 128-byte blocks of 0x00 and 0xFF. */
  function PowerOnPattern(n: nat): (r: seq<bv8>)
    requires n < 0x8000_0000
    ensures |r| == n
    ensures forall i :: 0 <= i < n ==> r[i] == (if i / 128 % 2 == 1 then 0xFF else 0x00)
  {
    seq(n, i requires 0 <= i < n => PowerOnByte(i))
  }

  /** A shorter pattern is a prefix of a longer one. */
  lemma PatternPrefix(m: nat, n: nat)
    requires m <= n < 0x8000_0000
    ensures PowerOnPattern(n)[..m] == PowerOnPattern(m)
  {
  }

  /** Each 128-byte block of the pattern holds a single value, and neighbouring blocks differ. */
  lemma {:induction false} PatternBlocks(n: nat, i: nat, j: nat)
    requires n < 0x8000_0000 && i < n && j < n
    ensures i / 128 == j / 128 ==> PowerOnPattern(n)[i] == PowerOnPattern(n)[j]
    ensures j / 128 == i / 128 + 1 ==> PowerOnPattern(n)[i] != PowerOnPattern(n)[j]
  {
    var bi, bj := i / 128, j / 128;
    PatternByte(n, i, bi);
    PatternByte(n, j, bj);
    if bj == bi + 1 {
      NextBlockParity(bi);
    }
  }

  lemma PatternByte(n: nat, i: nat, b: nat)
    requires n < 0x8000_0000 && i < n && b == i / 128
    ensures PowerOnPattern(n)[i] == (if b % 2 == 1 then 0xFF else 0x00)
  {
  }

  lemma NextBlockParity(b: nat)
    ensures (b + 1) % 2 != b % 2
  {
  }

  /** ClearData: overwrite exactly the first `length` bytes with the power-on pattern. */
  method ClearData(data: array<bv8>, length: int)
    requires 0 <= length <= data.Length && length < 0x8000_0000
    modifies data
    ensures data[..length] == PowerOnPattern(length)
    ensures data[length..] == old(data[length..])
  {
    var i := 0;
    while i < length
      invariant 0 <= i <= length
      invariant forall j :: 0 <= j < i ==> data[j] == PowerOnByte(j)
      invariant forall j :: length <= j < data.Length ==> data[j] == old(data[j])
    {
      if (i as bv32) & 0x80 != 0x80 {
        data[i] := 0x00;
      } else {
        data[i] := 0xFF;
      }
      i := i + 1;
    }
  }

  function Min(a: nat, b: nat): nat
  {
    if a < b then a else b
  }

  /** ReadFile into a buffer from the start of a file: as many bytes as both hold. */
  method ReadInto(buf: array<bv8>, file: seq<bv8>) returns (bytesRead: nat)
    modifies buf
    ensures bytesRead == Min(|file|, buf.Length)
    ensures buf[..] == file[..bytesRead] + old(buf[..])[bytesRead..]
  {
    bytesRead := Min(|file|, buf.Length);
    forall i | 0 <= i < bytesRead {
      buf[i] := file[i];
    }
  }

  /** The buffer the read-only fallback leaves: the pattern, overwritten by what the file holds. */
  function ReadOnlyImage(file: seq<bv8>, n: nat): (r: seq<bv8>)
    requires n < 0x8000_0000
    ensures |r| == n
    ensures |file| >= n ==> r == file[..n]
    ensures |file| < n ==> r[..|file|] == file && r[|file|..] == PowerOnPattern(n)[|file|..]
  {
    var k := Min(|file|, n);
    file[..k] + PowerOnPattern(n)[k..]
  }

  /** The save file cannot be opened for writing (LoadCart lines 509-529): clear the
      buffer, then read the file over it. */
  method ReadOnlyFallback(buf: array<bv8>, file: seq<bv8>)
    requires buf.Length < 0x8000_0000
    modifies buf
    ensures buf[..] == ReadOnlyImage(file, buf.Length)
  {
    ClearData(buf, buf.Length);
    var bytesRead := ReadInto(buf, file);
  }

  /** The buffer the mapping-failed fallback leaves: the file's prefix if it was long
      enough, the pattern otherwise. */
  function HeapImage(file: seq<bv8>, n: nat): (r: seq<bv8>)
    requires n < 0x8000_0000
    ensures |r| == n
    ensures |file| >= n ==> r == file[..n]
    ensures |file| < n ==> r == PowerOnPattern(n)
  {
    if |file| < n then PowerOnPattern(n) else file[..n]
  }

  /** The mapping could not be created (LoadCart lines 546-563): read the file into a
      heap buffer and discard the lot on a short read. `cleared` says that the buffer was
      cleared and the RAM-error warning raised. */
  method HeapFallback(buf: array<bv8>, file: seq<bv8>) returns (cleared: bool)
    requires buf.Length < 0x8000_0000
    modifies buf
    ensures cleared <==> |file| < buf.Length
    ensures buf[..] == HeapImage(file, buf.Length)
  {
    var bytesRead := ReadInto(buf, file);
    if bytesRead < buf.Length {
      ClearData(buf, buf.Length);
      cleared := true;
    } else {
      cleared := false;
    }
  }

  /** The two fallbacks agree on a file that fills the buffer; on a shorter file the
      read-only one keeps the bytes read and the other keeps none of them. */
  lemma {:induction false} FallbacksCompared(file: seq<bv8>, n: nat)
    requires n < 0x8000_0000
    ensures |file| >= n ==> ReadOnlyImage(file, n) == HeapImage(file, n)
    ensures |file| < n ==> ReadOnlyImage(file, n)[..|file|] == file
    ensures |file| < n ==> HeapImage(file, n)[..|file|] == PowerOnPattern(|file|)
  {
    if |file| < n {
      PatternPrefix(|file|, n);
    }
  }

  /** The size GoombaCheckAndLoad expects: the RAM region, plus the clock trailer for a
      timer cartridge with a battery. */
  function GoombaSizeNeeded(id: Identity): (n: nat)
    ensures id.quarterBlocks * 0x800 <= n <= id.quarterBlocks * 0x800 + Trailer.TrailerSize
    ensures n > id.quarterBlocks * 0x800 <==> id.hasTimer && id.hasBattery
  {
    id.quarterBlocks * 0x800 + (if id.hasTimer && id.hasBattery then Trailer.TrailerSize else 0)
  }

  /** Only battery cartridges with RAM reach the Goomba check, and for them the expected
      size is the size of the RAM buffer. */
  lemma GoombaSizeIsBufferSize(id: Identity)
    requires id.hasRam && id.hasBattery
    ensures GoombaSizeNeeded(id) == RamBufferSize(id)
  {
  }

  /** What the container lookup produced: no entry for the title, an entry whose payload
      could not be extracted, or the extracted payload. */
  datatype GoombaLookup = NoEntry | ExtractFailed | Extracted(payload: seq<bv8>)

  /** The freshly allocated buffer of `n = |blank|` bytes after the lookup. */
  function GoombaImage(blank: seq<bv8>, lookup: GoombaLookup): (r: seq<bv8>)
    requires |blank| < 0x8000_0000
    ensures |r| == |blank|
    ensures lookup.NoEntry? ==> r == PowerOnPattern(|blank|)
    ensures lookup.ExtractFailed? ==> r == blank
    ensures lookup.Extracted? && |lookup.payload| > |blank| ==> r == PowerOnPattern(|blank|)
    ensures lookup.Extracted? && |lookup.payload| <= |blank| ==>
      r[..|lookup.payload|] == lookup.payload && r[|lookup.payload|..] == blank[|lookup.payload|..]
  {
    match lookup
    case NoEntry => PowerOnPattern(|blank|)
    case ExtractFailed => blank
    case Extracted(p) => if |p| > |blank| then PowerOnPattern(|blank|) else p + blank[|p|..]
  }

  /** GoombaCheckAndLoad once the container is recognised: `buf` is the new buffer of the
      expected size. The cartridge gets bound to the container, for saving back, when a
      payload was extracted and a writable file name was passed, even if the payload was
      too large; `warn` is the warning message. */
  method GoombaLoad(buf: array<bv8>, lookup: GoombaLookup, writable: bool)
    returns (bound: bool, warn: bool)
    requires buf.Length < 0x8000_0000
    modifies buf
    ensures buf[..] == GoombaImage(old(buf[..]), lookup)
    ensures bound <==> lookup.Extracted? && writable
    ensures warn <==> lookup.NoEntry? || (lookup.Extracted? && |lookup.payload| > buf.Length)
  {
    bound, warn := false, false;
    match lookup
    case NoEntry =>
      ClearData(buf, buf.Length);
      warn := true;
    case ExtractFailed =>
    case Extracted(p) =>
      bound := writable;
      if |p| > buf.Length {
        ClearData(buf, buf.Length);
        warn := true;
      } else {
        forall i | 0 <= i < |p| {
          buf[i] := p[i];
        }
      }
  }
}
