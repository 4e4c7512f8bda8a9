/** The RTP framing the data channel puts around each payload: the fixed
    12-byte header of section 5.1 of RFC 3550 (no CSRC list, no extension),
    then four zero bytes, then the application bytes. */
module Rtp {
  import opened Bytes
  import opened Wrappers

  /** A payload type is the low seven bits of header byte 1. */
  type PayloadType = x: int | 0 <= x < 0x80

  const HeaderLen: nat := 12
  /** Bytes the data channel reserves between the header and the payload. */
  const Reserved: seq<byte> := [0, 0, 0, 0]
  const FramingLen: nat := HeaderLen + |Reserved|
  /** Header byte 0: version 2, no padding, no extension, no CSRC. */
  const FirstByte: byte := 0x80
  /** The data channel's RTP timestamp rate, in ticks per second. */
  const ClockRate: nat := 90000

  datatype Header = Header(payloadType: PayloadType, seqNum: uint16, timestamp: uint32, ssrc: uint32)

  /** A parsed packet: its header and the bytes that follow the framing. */
  datatype Frame = Frame(header: Header, payload: seq<byte>)

  /** Writes a header in wire order: flags, marker bit 0 and payload type,
      sequence number, timestamp, SSRC, multi-byte fields big-endian. */
  function EncodeHeader(h: Header): (r: seq<byte>)
    ensures |r| == HeaderLen
  {
    [FirstByte, h.payloadType] + Be16(h.seqNum) + Be32(h.timestamp) + Be32(h.ssrc)
  }

  /** Reads the header fields of a packet; a packet shorter than the header
      yields nothing and no byte of it is read. */
  function ParseHeader(p: seq<byte>): (r: Option<Header>)
    ensures r.Some? <==> |p| >= HeaderLen
  {
    if |p| < HeaderLen then None
    else Some(Header(p[1] % 0x80, ReadBe16(p[2..4]), ReadBe32(p[4..8]), ReadBe32(p[8..12])))
  }

  lemma ParseEncodeHeader(h: Header, rest: seq<byte>)
    ensures ParseHeader(EncodeHeader(h) + rest) == Some(h)
  {
    var p := EncodeHeader(h) + rest;
    assert p[2..4] == Be16(h.seqNum);
    assert p[4..8] == Be32(h.timestamp);
    assert p[8..12] == Be32(h.ssrc);
    Be16RoundTrip(h.seqNum);
    Be32RoundTrip(h.timestamp);
    Be32RoundTrip(h.ssrc);
  }

  /** The other direction: a header with version byte 0x80 and marker bit 0
      is re-encoded byte for byte. */
  lemma EncodeParseHeader(p: seq<byte>)
    requires |p| >= HeaderLen && p[0] == FirstByte && p[1] < 0x80
    ensures EncodeHeader(ParseHeader(p).value) == p[..HeaderLen]
  {
    ReadBe16RoundTrip(p[2..4]);
    ReadBe32RoundTrip(p[4..8]);
    ReadBe32RoundTrip(p[8..12]);
    assert p[..HeaderLen] == [p[0], p[1]] + p[2..4] + p[4..8] + p[8..12];
  }

  /** An outbound packet: header, the reserved zero bytes, the payload. */
  function Packetize(h: Header, payload: seq<byte>): (p: seq<byte>)
    ensures |p| == FramingLen + |payload|
  {
    EncodeHeader(h) + Reserved + payload
  }

  /** Splits an inbound packet into header and payload. Packets too short
      for the header, or for the header and the reserved bytes, yield
      nothing. */
  function Depacketize(p: seq<byte>): (r: Option<Frame>)
    ensures r.Some? <==> |p| >= FramingLen
    ensures r.Some? ==> ParseHeader(p) == Some(r.value.header)
    ensures r.Some? ==> |r.value.payload| == |p| - FramingLen
  {
    match ParseHeader(p)
    case None => None
    case Some(h) => if |p| < FramingLen then None else Some(Frame(h, p[FramingLen..]))
  }

  /** Packetize then Depacketize gives back the header and the payload. */
  lemma DepacketizePacketize(h: Header, payload: seq<byte>)
    ensures Depacketize(Packetize(h, payload)) == Some(Frame(h, payload))
  {
    var p := Packetize(h, payload);
    ParseEncodeHeader(h, Reserved + payload);
    assert EncodeHeader(h) + (Reserved + payload) == p;
    assert p[FramingLen..] == payload;
  }

  /** Depacketize then Packetize gives back every packet that has version
      byte 0x80, marker bit 0 and zero reserved bytes. */
  lemma PacketizeDepacketize(p: seq<byte>)
    requires |p| >= FramingLen && p[0] == FirstByte && p[1] < 0x80
    requires p[HeaderLen..FramingLen] == Reserved
    ensures Depacketize(p).Some?
    ensures Packetize(Depacketize(p).value.header, Depacketize(p).value.payload) == p
  {
    EncodeParseHeader(p);
    assert p == p[..HeaderLen] + p[HeaderLen..FramingLen] + p[FramingLen..];
  }

  /** Per-stream sender state: the last sequence number handed out and the
      random offset added to every timestamp. */
  datatype RtpClock = RtpClock(lastSeqNum: uint16, timestampOffset: uint32)
  {
    /** The sequence number of the next packet: one more, wrapping at 2^16. */
    function NextSeqNum(): uint16
    {
      (lastSeqNum + 1) % 0x1_0000
    }

    /** The timestamp for a send at `now` (in 90 kHz ticks), wrapping at 2^32. */
    function TimestampAt(now: nat): uint32
    {
      (timestampOffset + now) % 0x1_0000_0000
    }

    /** The clock after one packet has been sent. */
    function Tick(): (c: RtpClock)
      ensures c.timestampOffset == timestampOffset
      ensures c.lastSeqNum == NextSeqNum()
    {
      this.(lastSeqNum := NextSeqNum())
    }
  }

  /** Two successive sends on one clock: the sequence number goes up by one
      and the timestamp by the ticks elapsed, both modulo their width; with
      no wrap-around these are exactly +1 and +elapsed. */
  lemma {:induction false} SuccessiveSends(c: RtpClock, now0: nat, now1: nat)
    requires now0 <= now1
    ensures c.Tick().NextSeqNum() == (c.NextSeqNum() + 1) % 0x1_0000
    ensures c.Tick().TimestampAt(now1) == (c.TimestampAt(now0) + (now1 - now0)) % 0x1_0000_0000
    ensures c.NextSeqNum() < 0xFFFF ==> c.Tick().NextSeqNum() == c.NextSeqNum() + 1
    ensures c.TimestampAt(now0) + (now1 - now0) < 0x1_0000_0000 ==>
              c.Tick().TimestampAt(now1) == c.TimestampAt(now0) + (now1 - now0)
  {
    ModAddLeft(c.timestampOffset + now0, now1 - now0);
  }

  /** (a mod 2^32 + b) mod 2^32 == (a + b) mod 2^32. */
  lemma ModAddLeft(a: nat, b: nat)
    ensures (a % 0x1_0000_0000 + b) % 0x1_0000_0000 == (a + b) % 0x1_0000_0000
  {
    var m := 0x1_0000_0000;
    var q := a / m;
    assert a == q * m + a % m;
    assert (a + b) == q * m + (a % m + b);
  }

  /** The first sequence number of a fresh clock is zero only when the
      random starting value is the largest one. */
  lemma FirstSeqNumNonZero(c: RtpClock)
    ensures c.NextSeqNum() != 0 <==> c.lastSeqNum != 0xFFFF
  {
  }
}
