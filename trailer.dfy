/** The RTC trailer that a timer-and-battery cartridge keeps after its RAM image
    in the save file: five live registers, five latched registers and the wall-clock
    time of the last update. LoadCart copies it out of the RAM buffer and SaveCart
    copies it back in. The C struct that holds it is declared in GBCart.h, which is
    not part of this model, so its byte layout here is a fixed choice: the ten
    register bytes in order, then the timestamp as a signed 64-bit little-endian word. */
module Trailer {
  import opened Bytes

  const TrailerSize: nat := 18

  /** 2^63: a 64-bit `time_t` lies in [-TimeBound, TimeBound). */
  const TimeBound: int := 0x8000_0000_0000_0000

  predicate InTimeRange(t: int)
  {
    -TimeBound <= t < TimeBound
  }

  /** A 64-bit `time_t`. */
  type Time = t: int | InTimeRange(t)

  datatype RtcTrailer = RtcTrailer(live: seq<bv8>, latched: seq<bv8>, lastTime: int)

  predicate WellFormed(t: RtcTrailer)
  {
    |t.live| == 5 && |t.latched| == 5 && InTimeRange(t.lastTime)
  }

  lemma Pow256Eight()
    ensures Pow256(8) == 2 * TimeBound
  {
    assert Pow256(4) == 0x1_0000_0000;
    assert Pow256(8) == 256 * 256 * 256 * 256 * Pow256(4);
  }

  function EncodeTime(t: int): (r: seq<bv8>)
    requires InTimeRange(t)
    ensures |r| == 8
  {
    EncodeLe(if t < 0 then t + 2 * TimeBound else t, 8)
  }

  function DecodeTime(s: seq<bv8>): (r: int)
    requires |s| == 8
    ensures InTimeRange(r)
  {
    Pow256Eight();
    var v := DecodeLe(s);
    if v >= TimeBound then v - 2 * TimeBound else v
  }

  lemma {:induction false} DecodeEncodeTime(t: int)
    requires InTimeRange(t)
    ensures DecodeTime(EncodeTime(t)) == t
  {
    Pow256Eight();
    DecodeEncodeLe(if t < 0 then t + 2 * TimeBound else t, 8);
  }

  lemma {:induction false} EncodeDecodeTime(s: seq<bv8>)
    requires |s| == 8
    ensures EncodeTime(DecodeTime(s)) == s
  {
    Pow256Eight();
    EncodeDecodeLe(s);
  }

  function Serialise(t: RtcTrailer): (r: seq<bv8>)
    requires WellFormed(t)
    ensures |r| == TrailerSize
    ensures r[..5] == t.live && r[5..10] == t.latched
  {
    t.live + t.latched + EncodeTime(t.lastTime)
  }

  function Deserialise(s: seq<bv8>): (r: RtcTrailer)
    requires |s| == TrailerSize
    ensures WellFormed(r)
    ensures r.live == s[..5] && r.latched == s[5..10]
  {
    RtcTrailer(s[..5], s[5..10], DecodeTime(s[10..]))
  }

  /** Reading back a trailer that was written gives the same registers and time. */
  lemma {:induction false} DeserialiseSerialise(t: RtcTrailer)
    requires WellFormed(t)
    ensures Deserialise(Serialise(t)) == t
  {
    var s := Serialise(t);
    assert s[10..] == EncodeTime(t.lastTime);
    DecodeEncodeTime(t.lastTime);
  }

  /** Writing back a trailer that was read reproduces its bytes exactly. */
  lemma {:induction false} SerialiseDeserialise(s: seq<bv8>)
    requires |s| == TrailerSize
    ensures Serialise(Deserialise(s)) == s
  {
    EncodeDecodeTime(s[10..]);
    assert s == s[..5] + s[5..10] + s[10..];
  }
}
