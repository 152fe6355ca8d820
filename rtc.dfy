/** The MBC3 real-time clock: five one-byte registers (seconds, minutes, hours,
    day-low, control), a latched snapshot of them, the time of the last update and
    the latch flag. UpdateRTC adds the wall-clock time elapsed since the last
    update to the registers; the latch register freezes a snapshot for reads. */
module Rtc {
  import Trailer
  import opened Bytes

  datatype RtcState = RtcState(live: seq<bv8>, latched: seq<bv8>, last: int, isLatched: bool)

  predicate WellFormed(s: RtcState)
  {
    |s.live| == 5 && |s.latched| == 5
  }

  /** Elapsed times must fit the `int` that UpdateRTC adds the days to. */
  const MaxElapsed: int := 0x8000_0000

  /** The clock may not run backwards, and the new time must fit a 64-bit `time_t`. */
  predicate ClockOk(last: int, now: int)
  {
    last <= now < Trailer.TimeBound && now - last < MaxElapsed
  }

  /** The 9-bit day counter: day-low plus bit 0 of the control byte as bit 8. */
  function DayCount(t: seq<bv8>): (r: nat)
    requires |t| == 5
    ensures r <= 511
  {
    t[3] as nat + (if t[4] & 1 == 1 then 256 else 0)
  }

  /** A byte register incremented by a small count, wrapping modulo 256. */
  function AddWrapping(reg: bv8, n: nat): bv8
    requires n < 256
  {
    reg + n as bv8
  }

  /** UpdateRTC's arithmetic on the live registers for `dif` elapsed seconds. Each of
      seconds, minutes and hours gets its share of `dif` added modulo 256, with no
      carry between registers; the day count is recomputed, and the control byte gets
      the sticky overflow bit 7 when it passes 511, and bit 0 set when the (masked)
      count is above 255. */
  function Advance(t: seq<bv8>, dif: nat): (r: seq<bv8>)
    requires |t| == 5
    ensures |r| == 5
  {
    var minutes := dif / 60;
    var hours := minutes / 60;
    var days := DayCount(t) + hours / 24;
    [AddWrapping(t[0], dif % 60),
     AddWrapping(t[1], minutes % 60),
     AddWrapping(t[2], hours % 24),
     (days % 256) as bv8,
     Control(t[4], days)]
  }

  /** The control byte after the new, unmasked day count `days` is known. */
  function Control(c: bv8, days: nat): (r: bv8)
    ensures r & 0x80 == 0x80 <==> (c & 0x80 == 0x80 || days > 511)
    ensures r & 0x01 == if (if days > 511 then days % 512 else days) > 255 then 0x01 else c & 0x01
    ensures r & 0x7E == c & 0x7E
  {
    var flagged := if days > 511 then c | 0x80 else c;
    var masked := if days > 511 then days % 512 else days;
    if masked > 255 then (flagged & 0xFE) | 1 else flagged
  }

  lemma ModSmall(n: nat, x: nat)
    requires n < 256 && (x == 0 || x == 256)
    ensures (n + x) % 256 == n
  {
  }

  /** The day-low byte is the low 8 bits of the day count. */
  lemma DayLow(t: seq<bv8>)
    requires |t| == 5
    ensures ((DayCount(t) % 256) as bv8) == t[3]
  {
    var n := t[3] as nat;
    var x := if t[4] & 1 == 1 then 256 else 0;
    assert DayCount(t) == n + x;
    ByteBound(t[3]);
    ModSmall(n, x);
    NatOfByte(t[3]);
  }

  lemma ControlWithoutOverflow(c: bv8, days: nat)
    requires days <= 511 && (days > 255 ==> c & 1 == 1)
    ensures Control(c, days) == c
  {
    if days > 255 {
      assert (c & 0xFE) | 1 == c;
    }
  }

  /** A day count past 255 has bit 0 of the control byte set. */
  lemma DayCountHigh(t: seq<bv8>)
    requires |t| == 5
    ensures DayCount(t) > 255 ==> t[4] & 1 == 1
  {
    ByteBound(t[3]);
  }

  lemma AdvanceZeroTimeOfDay(t: seq<bv8>)
    requires |t| == 5
    ensures Advance(t, 0)[0] == t[0] && Advance(t, 0)[1] == t[1] && Advance(t, 0)[2] == t[2]
  {
    assert 0 / 60 == 0 && 0 % 60 == 0 && 0 % 24 == 0;
  }

  lemma AdvanceZeroDayLow(t: seq<bv8>)
    requires |t| == 5
    ensures Advance(t, 0)[3] == t[3]
  {
    assert 0 / 60 / 60 / 24 == 0;
    DayLow(t);
  }

  lemma AdvanceZeroControl(t: seq<bv8>)
    requires |t| == 5
    ensures Advance(t, 0)[4] == t[4]
  {
    assert 0 / 60 / 60 / 24 == 0;
    DayCountHigh(t);
    ControlWithoutOverflow(t[4], DayCount(t));
  }

  /** No elapsed time changes no register. */
  lemma {:induction false} AdvanceZero(t: seq<bv8>)
    requires |t| == 5
    ensures Advance(t, 0) == t
  {
    AdvanceZeroTimeOfDay(t);
    AdvanceZeroDayLow(t);
    AdvanceZeroControl(t);
    var r := Advance(t, 0);
    assert forall i | 0 <= i < 5 :: r[i] == t[i];
  }

  lemma DivChain(n: nat)
    ensures n / 60 / 60 == n / 3600
    ensures n / 60 / 60 / 24 == n / 86400
  {
  }

  /** Advance register by register, with the divisions chained as UpdateRTC chains them. */
  lemma AdvanceRegisters(t: seq<bv8>, dif: nat, r0: bv8, r1: bv8, r2: bv8, r3: bv8, r4: bv8)
    requires |t| == 5
    requires r0 == AddWrapping(t[0], dif % 60)
    requires r1 == AddWrapping(t[1], dif / 60 % 60)
    requires r2 == AddWrapping(t[2], dif / 60 / 60 % 24)
    requires r3 == ((DayCount(t) + dif / 60 / 60 / 24) % 256) as bv8
    requires r4 == Control(t[4], DayCount(t) + dif / 60 / 60 / 24)
    ensures Advance(t, dif) == [r0, r1, r2, r3, r4]
  {
  }

  /** The registers as functions of the total elapsed time: seconds advance by dif mod 60,
      minutes by (dif / 60) mod 60, hours by (dif / 3600) mod 24, each modulo 256, and
      the day-low byte becomes the low 8 bits of the old day count plus dif / 86400. */
  lemma {:induction false} AdvanceClosedForm(t: seq<bv8>, dif: nat)
    requires |t| == 5
    ensures var r := Advance(t, dif);
      r[0] == t[0] + (dif % 60) as bv8 &&
      r[1] == t[1] + ((dif / 60) % 60) as bv8 &&
      r[2] == t[2] + ((dif / 3600) % 24) as bv8 &&
      r[3] == ((DayCount(t) + dif / 86400) % 256) as bv8
  {
    DivChain(dif);
  }

  /** The control byte: bit 7 is set when the day count passes 511 and is never
      cleared; bit 0 is set when the masked count is above 255 and otherwise keeps its
      old value (a wrap past 511 does not clear it); bits 1 to 6 are untouched. */
  lemma {:induction false} AdvanceControl(t: seq<bv8>, dif: nat)
    requires |t| == 5
    ensures var r := Advance(t, dif);
      var days := DayCount(t) + dif / 86400;
      var masked := if days > 511 then days % 512 else days;
      (r[4] & 0x80 == 0x80 <==> (t[4] & 0x80 == 0x80 || days > 511)) &&
      (r[4] & 0x01 == if masked > 255 then 1 else t[4] & 0x01) &&
      r[4] & 0x7E == t[4] & 0x7E
  {
    DivChain(dif);
  }

  /** Without overflow, bit 0 of the control byte ends up set exactly when the new
      count is above 255 or it was set before. */
  lemma ControlLowBit(c: bv8, days: nat)
    requires days <= 511
    ensures Control(c, days) & 1 == 1 <==> (days > 255 || c & 1 == 1)
  {
  }

  /** The day registers after Advance, in terms of the new unmasked day count. */
  lemma AdvanceDayRegisters(t: seq<bv8>, dif: nat)
    requires |t| == 5
    ensures var days := DayCount(t) + dif / 86400;
      Advance(t, dif)[3] == (days % 256) as bv8 &&
      Advance(t, dif)[4] == Control(t[4], days)
  {
    DivChain(dif);
  }

  /** A day count below 512 is read back from its low byte and the control bit. */
  lemma DayCountOfRegisters(lo: bv8, c: bv8, old0: bv8, days: nat)
    requires days <= 511 && (days <= 255 ==> old0 & 1 == 0)
    requires lo == (days % 256) as bv8 && c == Control(old0, days)
    ensures lo as nat + (if c & 1 == 1 then 256 else 0) == days
  {
    ByteOfNat(days % 256);
    ControlLowBit(old0, days);
  }

  /** Without overflow the 9-bit day counter counts exactly. */
  lemma {:induction false} DayCountExact(t: seq<bv8>, dif: nat)
    requires |t| == 5
    requires DayCount(t) + dif / 86400 <= 511
    ensures DayCount(Advance(t, dif)) == DayCount(t) + dif / 86400
  {
    var days := DayCount(t) + dif / 86400;
    var r := Advance(t, dif);
    AdvanceDayRegisters(t, dif);
    assert days <= 255 ==> t[4] & 1 == 0;
    DayCountOfRegisters(r[3], r[4], t[4], days);
  }

  /** Day 510 plus three days: the day-low byte reads 1 and the overflow bit is set, but
      bit 0 of the control byte stays set, so the counter reads 257 rather than 1. */
  lemma DayWrapKeepsHighBit()
    ensures var r := Advance([0, 0, 0, 0xFE, 0x01], 3 * 86400);
      r[3] == 0x01 && r[4] == 0x81 && DayCount(r) == 257
  {
    var t: seq<bv8> := [0, 0, 0, 0xFE, 0x01];
    var dif := 3 * 86400;
    assert dif % 60 == 0 && dif / 60 == 4320 && 4320 % 60 == 0;
    assert 4320 / 60 == 72 && 72 % 24 == 0 && 72 / 24 == 3;
    assert DayCount(t) == 510;
    assert Control(0x01, 513) == 0x81;
    AdvanceRegisters(t, dif, 0, 0, 0, 0x01, 0x81);
    assert DayCount([0, 0, 0, 0x01, 0x81]) == 257;
  }

  /** One hour, one minute and one second advance each of the three registers by one. */
  lemma AdvanceOneHourOneMinuteOneSecond()
    ensures Advance([10, 20, 5, 7, 0], 3661) == [11, 21, 6, 7, 0]
  {
    var t: seq<bv8> := [10, 20, 5, 7, 0];
    assert 3661 % 60 == 1 && 3661 / 60 == 61 && 61 % 60 == 1;
    assert 61 / 60 == 1 && 1 % 24 == 1 && 1 / 24 == 0;
    assert DayCount(t) == 7;
    AdvanceRegisters(t, 3661, 11, 21, 6, 7, 0);
  }

  /** The registers do not carry: 59 seconds plus one reads 60 seconds, 0 minutes. */
  lemma SecondsDoNotCarry()
    ensures Advance([59, 0, 0, 0, 0], 1) == [60, 0, 0, 0, 0]
  {
    var t: seq<bv8> := [59, 0, 0, 0, 0];
    assert 1 % 60 == 1 && 1 / 60 == 0 && 0 % 60 == 0 && 0 / 60 == 0 && 0 % 24 == 0 && 0 / 24 == 0;
    assert DayCount(t) == 0;
    AdvanceRegisters(t, 1, 60, 0, 0, 0, 0);
  }

  /** UpdateRTC on the whole clock: advance the live registers and stamp the time. */
  function Tick(s: RtcState, now: int): (r: RtcState)
    requires WellFormed(s) && ClockOk(s.last, now)
    ensures WellFormed(r) && r.last == now
    ensures r.latched == s.latched && r.isLatched == s.isLatched
  {
    s.(live := Advance(s.live, now - s.last), last := now)
  }

  /** A second tick at the same time changes nothing. */
  lemma {:induction false} TickIdempotent(s: RtcState, now: int)
    requires WellFormed(s) && ClockOk(s.last, now)
    ensures Tick(Tick(s, now), now) == Tick(s, now)
  {
    AdvanceZero(Tick(s, now).live);
  }

  /** The MBC3 latch register. Every write first copies the live registers into the
      snapshot. With bit 0 set it then ticks, copies registers 0 to 3 again and sets the
      latch flag, so the snapshot's control byte is the value from before the tick.
      With bit 0 clear it clears the flag. */
  function LatchWrite(s: RtcState, on: bool, now: int): (r: RtcState)
    requires WellFormed(s)
    requires on ==> ClockOk(s.last, now)
    ensures WellFormed(r)
  {
    var copied := s.(latched := s.live);
    if on then
      var ticked := Tick(copied, now);
      ticked.(latched := ticked.live[..4] + [s.live[4]], isLatched := true)
    else
      copied.(isLatched := false)
  }

  /** What the latch leaves behind, stated register by register. */
  lemma {:induction false} LatchWriteEffect(s: RtcState, on: bool, now: int)
    requires WellFormed(s)
    requires on ==> ClockOk(s.last, now)
    ensures var r := LatchWrite(s, on, now);
      r.isLatched == on &&
      (on ==> r.live == Advance(s.live, now - s.last) && r.last == now &&
              (forall i :: 0 <= i < 4 ==> r.latched[i] == r.live[i]) &&
              r.latched[4] == s.live[4]) &&
      (!on ==> r.live == s.live && r.last == s.last && r.latched == s.live)
  {
    var r := LatchWrite(s, on, now);
    if on {
      var ticked := Tick(s.(latched := s.live), now);
      assert r == ticked.(latched := ticked.live[..4] + [s.live[4]], isLatched := true);
      assert ticked.live == Advance(s.live, now - s.last);
    }
  }

  /** The register an RTC read broadcasts: the snapshot while latched, the live one otherwise. */
  function Visible(s: RtcState, i: nat): (v: bv8)
    requires WellFormed(s) && i < 5
  {
    if s.isLatched then s.latched[i] else s.live[i]
  }

  /** Disabling the latch keeps the snapshot readable only through a new latch: reads
      then see the live registers, which equal what was just copied. */
  lemma {:induction false} UnlatchShowsLive(s: RtcState, now: int, i: nat)
    requires WellFormed(s) && i < 5
    ensures Visible(LatchWrite(s, false, now), i) == s.live[i]
  {
  }

  /** Saving and restoring the clock through the trailer record. */
  function ToTrailer(s: RtcState): (t: Trailer.RtcTrailer)
    requires WellFormed(s) && Trailer.InTimeRange(s.last)
    ensures Trailer.WellFormed(t)
  {
    Trailer.RtcTrailer(s.live, s.latched, s.last)
  }
}
