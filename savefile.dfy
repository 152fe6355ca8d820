/** The battery save file of a timer cartridge: the RAM region followed by the clock
    trailer. LoadCart reads the trailer at the load-time quarter-block offset when the
    file is long enough; SaveCart writes it at the offset its own switch recomputes. */
module SaveFile {
  import opened Bytes
  import opened Header
  import opened Rtc
  import opened Trailer

  /** A cartridge whose save file carries a clock trailer. */
  predicate HasTrailer(id: Identity)
  {
    id.hasRam && id.hasBattery && id.hasTimer
  }

  /** Where LoadCart looks for the trailer. */
  function LoadOffset(id: Identity): nat
  {
    id.quarterBlocks * 0x800
  }

  /** LoadCart reads the trailer only from a file that reaches past the RAM region by a whole trailer. */
  function TrailerPresent(id: Identity, fileSize: nat): (present: bool)
    ensures HasTrailer(id) ==> (present <==> fileSize >= RamBufferSize(id))
  {
    fileSize >= LoadOffset(id) + TrailerSize
  }

  /** The trailer as LoadCart decodes it from the RAM buffer. */
  function StoredTrailer(id: Identity, ram: seq<bv8>): (t: RtcTrailer)
    requires HasTrailer(id) && |ram| == RamBufferSize(id)
    ensures Trailer.WellFormed(t)
    ensures t.live == ram[LoadOffset(id)..LoadOffset(id) + 5]
  {
    Deserialise(ram[LoadOffset(id)..LoadOffset(id) + TrailerSize])
  }

  /** The clock registers and timestamp taken over from a trailer; the latch flag is untouched. */
  function Restore(s: RtcState, t: RtcTrailer): (r: RtcState)
    requires Trailer.WellFormed(t)
    ensures Rtc.WellFormed(r) && r.isLatched == s.isLatched
  {
    RtcState(t.live, t.latched, t.lastTime, s.isLatched)
  }

  /** The RAM buffer after SaveCart. Only a plain (non-Goomba) battery file with a
      clock is rewritten, and the trailer goes at SaveCart's own offset. */
  function SavedRam(id: Identity, goombaBound: bool, ram: seq<bv8>, clock: RtcState): (r: seq<bv8>)
    requires Consistent(id) && |ram| == RamBufferSize(id) && Rtc.WellFormed(clock) && InTimeRange(clock.last)
    ensures |r| == |ram|
    ensures (goombaBound || !HasTrailer(id)) ==> r == ram
  {
    if !goombaBound && HasTrailer(id) then
      Splice(ram, SaveQuarterBlocks(id.ramCode) * 0x800, Serialise(ToTrailer(clock)))
    else ram
  }

  /** What saving the clock and then loading it back, with no Goomba container and
      RAM-size code other than 5, yields: the saved registers and timestamp exactly. */
  lemma SaveThenLoadRestoresClock(id: Identity, ram: seq<bv8>, clock: RtcState, s: RtcState)
    requires Consistent(id) && HasTrailer(id) && id.ramCode != 0x05
    requires |ram| == RamBufferSize(id) && Rtc.WellFormed(clock) && InTimeRange(clock.last)
    ensures Restore(s, StoredTrailer(id, SavedRam(id, false, ram, clock))) == clock.(isLatched := s.isLatched)
  {
    var off := LoadOffset(id);
    var saved := SavedRam(id, false, ram, clock);
    assert saved[off..off + TrailerSize] == Serialise(ToTrailer(clock));
    DeserialiseSerialise(ToTrailer(clock));
  }

  /** The same save leaves the RAM region before the trailer as it was. */
  lemma SaveKeepsRamRegion(id: Identity, ram: seq<bv8>, clock: RtcState)
    requires Consistent(id) && HasTrailer(id) && id.ramCode != 0x05
    requires |ram| == RamBufferSize(id) && Rtc.WellFormed(clock) && InTimeRange(clock.last)
    ensures SavedRam(id, false, ram, clock)[..LoadOffset(id)] == ram[..LoadOffset(id)]
  {
    var saved := SavedRam(id, false, ram, clock);
    assert forall i :: 0 <= i < LoadOffset(id) ==> saved[i] == ram[i];
  }

  /** RAM-size code 5: SaveCart's switch has no case for it, so the trailer lands on the
      first 18 bytes of RAM bank 0, and the next load reads whatever trailer the file
      already held. */
  lemma Code5SaveMisplacesTrailer(id: Identity, ram: seq<bv8>, clock: RtcState)
    requires Consistent(id) && HasTrailer(id) && id.ramCode == 0x05
    requires |ram| == RamBufferSize(id) && Rtc.WellFormed(clock) && InTimeRange(clock.last)
    ensures SavedRam(id, false, ram, clock)[..TrailerSize] == Serialise(ToTrailer(clock))
    ensures StoredTrailer(id, SavedRam(id, false, ram, clock)) == StoredTrailer(id, ram)
  {
    var off := LoadOffset(id);
    var saved := SavedRam(id, false, ram, clock);
    assert off == 32 * 0x800;
    assert saved[off..off + TrailerSize] == ram[off..off + TrailerSize];
  }
}
