/** The channel's unit tests as client code: each method builds the same
    objects and makes the same calls as its test, and each expectation of
    the test is an assertion the channel's contracts must prove. Random
    starting values and the payload bound are parameters, so each
    assertion holds for all of them. */
module DataEngineTest {
  import opened Wrappers
  import opened Bytes
  import opened Rtp
  import opened Codecs
  import opened Streams
  import opened Fakes
  import opened DataMedia

  /** "food" */
  const Food: seq<byte> := [0x66, 0x6F, 0x6F, 0x64]
  /** "foo" */
  const Foo: seq<byte> := [0x66, 0x6F, 0x6F]
  /** "abcde" */
  const Abcde: seq<byte> := [0x61, 0x62, 0x63, 0x64, 0x65]

  /** Payload type 103, sequence number 2, timestamp 3, SSRC 42, "abcde". */
  const AbcdePacket: seq<byte> :=
    [0x80, 0x67, 0x00, 0x02, 0x00, 0x00, 0x00, 0x03, 0x00, 0x00, 0x00, 0x2A, 0x00, 0x00, 0x00, 0x00] + Abcde

  lemma AbcdePacketFrame()
    ensures Depacketize(AbcdePacket) == Some(Frame(Header(103, 2, 3, 42), Abcde))
  {
    var p := AbcdePacket;
    assert p[2..4] == [0x00, 0x02] && p[4..8] == [0x00, 0x00, 0x00, 0x03];
    assert p[8..12] == [0x00, 0x00, 0x00, 0x2A];
    assert p[FramingLen..] == Abcde;
  }

  /** Whether a channel in any state delivers the "abcde" packet: only when
      it is receiving, knows payload type 103 and has SSRC 42 registered
      with a receiver bound to it. */
  lemma AbcdeDelivery(dmc: DataMediaChannel)
    ensures dmc.Delivery(AbcdePacket) ==
              if dmc.receiving && FindCodecById(dmc.recvCodecs, 103).Some?
                 && 42 in dmc.recvStreams && 42 in dmc.receivers
              then Some(Frame(Header(103, 2, 3, 42), Abcde))
              else None
  {
    AbcdePacketFrame();
  }

  /** Everything after the 12-byte header of a sent packet, or nothing. */
  function SentData(packet: seq<byte>): (d: seq<byte>)
    ensures |d| == if |packet| > HeaderLen then |packet| - HeaderLen else 0
    ensures forall i | 0 <= i < |d| :: d[i] == packet[HeaderLen + i]
  {
    if |packet| > HeaderLen then packet[HeaderLen..] else []
  }

  /** What the test reads back from a packet the channel sent. */
  lemma SentPacket(h: Header, payload: seq<byte>)
    ensures ParseHeader(Packetize(h, payload)) == Some(h)
    ensures SentData(Packetize(h, payload)) == Reserved + payload
  {
    ParseEncodeHeader(h, Reserved + payload);
    assert Packetize(h, payload) == EncodeHeader(h) + (Reserved + payload);
  }

  /** The send tests' expectation on two successive sequence numbers as
      written, compared as plain integers. */
  predicate SeqNumFollowsAsWritten(h0: Header, h1: Header)
  {
    h0.seqNum + 1 == h1.seqNum
  }

  /** The expectation as written fails when the first packet carries the
      largest sequence number: the next one wraps to zero. */
  lemma SeqNumFollowsAsWrittenFailsAtWrap()
    ensures var c := RtpClock(0xFFFE, 0);
            && c.NextSeqNum() == 0xFFFF && c.Tick().NextSeqNum() == 0
            && !SeqNumFollowsAsWritten(Header(103, c.NextSeqNum(), 0, 42), Header(103, c.Tick().NextSeqNum(), 0, 42))
  {
  }

  /** The expectation on successive sequence numbers, modulo 2^16. */
  predicate SeqNumFollows(h0: Header, h1: Header)
  {
    h1.seqNum == (h0.seqNum + 1) % 0x1_0000
  }

  /** The headers of two successive packets on one clock, the second sent
      `elapsed` ticks after the first, which was sent at time zero. */
  lemma HeadersAdvance(c: RtpClock, h0: Header, h1: Header, elapsed: nat)
    requires h0.seqNum == c.NextSeqNum() && h0.timestamp == c.TimestampAt(0)
    requires h1.seqNum == c.Tick().NextSeqNum() && h1.timestamp == c.Tick().TimestampAt(elapsed)
    ensures SeqNumFollows(h0, h1)
    ensures h1.timestamp == (h0.timestamp + elapsed) % 0x1_0000_0000
  {
    SuccessiveSends(c, 0, elapsed);
  }

  /** Test fixture: a channel of a fresh engine driven by `timing`, sending
      through `iface`. */
  method CreateChannel(timing: FakeTiming, iface: FakeNetworkInterface, maxDataLen: nat)
    returns (dmc: DataMediaChannel)
    requires maxDataLen < 10_000_000
    ensures fresh(dmc) && dmc.Valid()
    ensures dmc.known == [GoogleDataCodec] && dmc.maxDataLen == maxDataLen
    ensures dmc.timing == timing && dmc.iface == iface
    ensures !dmc.sending && !dmc.receiving && dmc.sendCodecs == [] && dmc.recvCodecs == []
    ensures dmc.sendStreams == map[] && dmc.recvStreams == {} && dmc.receivers == map[]
  {
    var dme := new DataEngine(maxDataLen);
    dme.SetTiming(timing);
    dmc := dme.CreateChannel();
    dmc.SetInterface(iface);
  }

  method SetUnknownCodecsTest(maxDataLen: nat)
    requires maxDataLen < 10_000_000
  {
    var iface := new FakeNetworkInterface();
    var timing := new FakeTiming();
    var dmc := CreateChannel(timing, iface, maxDataLen);
    var knownCodec := Codec(103, "google-data");
    var unknownCodec := Codec(104, "unknown-data");
    var knownCodecs := [knownCodec];
    var unknownCodecs := [unknownCodec];
    var mixedCodecs := [knownCodec, unknownCodec];

    assert knownCodecs[0] in dmc.known;
    var ok := dmc.SetSendCodecs(knownCodecs);
    assert ok;
    ok := dmc.SetSendCodecs(unknownCodecs);
    assert !ok;
    assert mixedCodecs[0] in dmc.known;
    ok := dmc.SetSendCodecs(mixedCodecs);
    assert ok;
    assert dmc.SendCodec() == Some(knownCodec);
    ok := dmc.SetRecvCodecs(knownCodecs);
    assert ok;
    ok := dmc.SetRecvCodecs(unknownCodecs);
    assert !(unknownCodecs[0] in dmc.known);
    assert !ok;
    ok := dmc.SetRecvCodecs(mixedCodecs);
    assert !(mixedCodecs[1] in dmc.known);
    assert !ok;
  }

  /** The state the send tests bring a channel to before a send succeeds:
      sending on, `ssrc` the one registered stream with RTP clock `clock`,
      the Google data codec negotiated, payloads of `len` bytes allowed. */
  ghost predicate ReadyToSend(dmc: DataMediaChannel, timing: FakeTiming, iface: FakeNetworkInterface,
                              ssrc: uint32, clock: RtpClock, len: nat)
    reads dmc
  {
    && dmc.Valid() && dmc.timing == timing && dmc.iface == iface
    && dmc.sending && dmc.sendStreams == map[ssrc := clock]
    && dmc.SendCodec() == Some(GoogleDataCodec) && len <= dmc.maxDataLen
  }

  method SendDataTest(seqBase: uint16, timestampOffset: uint32, maxDataLen: nat)
    requires |Food| <= maxDataLen < 10_000_000
  {
    var iface := new FakeNetworkInterface();
    var timing := new FakeTiming();
    var dmc := CreateChannel(timing, iface, maxDataLen);
    var params := SendDataParams(42);

    // Null data.
    var ok := dmc.SendData(params, None, |Food|);
    assert !ok && iface.NumRtpPackets() == 0;
    // Negative length.
    ok := dmc.SendData(params, Some(Food), -1);
    assert !ok && iface.NumRtpPackets() == 0;
    // Not sending.
    ok := dmc.SendData(params, Some(Food), |Food|);
    assert !ok && iface.NumRtpPackets() == 0;
    ok := dmc.SetSend(true);
    assert ok;
    // Unknown stream.
    ok := dmc.SendData(params, Some(Food), |Food|);
    assert !ok && iface.NumRtpPackets() == 0;
    ok := dmc.AddSendStream(StreamParams([]).AddSsrc(42), seqBase, timestampOffset);
    assert ok;
    SendDataConfigured(dmc, timing, iface, seqBase, timestampOffset);
  }

  /** The send test from the registration of SSRC 42 on: a send before any
      codec is negotiated, a send of too long a payload, then the two sends
      that succeed. */
  method SendDataConfigured(dmc: DataMediaChannel, timing: FakeTiming, iface: FakeNetworkInterface,
                            seqBase: uint16, timestampOffset: uint32)
    requires dmc.Valid() && dmc.timing == timing && dmc.iface == iface
    requires dmc.known == [GoogleDataCodec] && |Food| <= dmc.maxDataLen < 10_000_000
    requires dmc.sending && dmc.sendCodecs == []
    requires dmc.sendStreams == map[42 := RtpClock(seqBase, timestampOffset)]
    requires timing.now == 0 && iface.rtpPackets == []
    modifies dmc, timing, iface
  {
    var params := SendDataParams(42);
    // Unknown codec.
    var ok := dmc.SendData(params, Some(Food), |Food|);
    assert !ok && iface.NumRtpPackets() == 0;
    var codecs := [GoogleDataCodec];
    assert codecs[0] in dmc.known;
    ok := dmc.SetSendCodecs(codecs);
    assert ok;
    // Length too large.
    ok := dmc.SendData(params, Some(Food), 10_000_000);
    assert !ok && iface.NumRtpPackets() == 0;

    assert ReadyToSend(dmc, timing, iface, 42, RtpClock(seqBase, timestampOffset), |Food|);
    SendDataSucceeds(dmc, timing, iface, seqBase, timestampOffset);
  }

  /** The second half of the send test: two sends of "food", two seconds
      apart. */
  method SendDataSucceeds(dmc: DataMediaChannel, timing: FakeTiming, iface: FakeNetworkInterface,
                          seqBase: uint16, timestampOffset: uint32)
    requires ReadyToSend(dmc, timing, iface, 42, RtpClock(seqBase, timestampOffset), |Food|)
    requires timing.now == 0 && iface.rtpPackets == []
    modifies dmc, timing, iface
  {
    var clock := RtpClock(seqBase, timestampOffset);
    var ok, data0, header0 := SendAndReadBack(dmc, timing, iface, 42, clock, Food);
    assert ok && iface.NumRtpPackets() == 1;
    assert data0 == Reserved + Food;
    assert seqBase != 0xFFFF ==> header0.seqNum != 0;
    assert timestampOffset != 0 ==> header0.timestamp != 0;
    assert header0.ssrc == 42 && header0.payloadType == 103;

    // Two seconds later the timestamp is 180000 ticks on.
    timing.SetNow(2 * ClockRate);
    var data1, header1;
    ok, data1, header1 := SendAndReadBack(dmc, timing, iface, 42, clock.Tick(), Food);
    assert ok && iface.NumRtpPackets() == 2;
    assert data1 == Reserved + Food;
    assert header1.ssrc == 42 && header1.payloadType == 103;
    HeadersAdvance(clock, header0, header1, 2 * ClockRate);
    assert SeqNumFollows(header0, header1);
    assert header1.timestamp == (header0.timestamp + 180000) % 0x1_0000_0000;
  }

  /** A channel of its own engine and clock, ready to send on `ssrc`. */
  method CreateSender(timing: FakeTiming, iface: FakeNetworkInterface, maxDataLen: nat,
                      ssrc: uint32, seqBase: uint16, timestampOffset: uint32)
    returns (dmc: DataMediaChannel)
    requires |Foo| <= maxDataLen < 10_000_000
    ensures fresh(dmc)
    ensures ReadyToSend(dmc, timing, iface, ssrc, RtpClock(seqBase, timestampOffset), |Foo|)
  {
    dmc := CreateChannel(timing, iface, maxDataLen);
    var ok := dmc.SetSend(true);
    assert ok;
    ok := dmc.AddSendStream(StreamParams([ssrc]), seqBase, timestampOffset);
    assert ok;
    var codecs := [GoogleDataCodec];
    assert codecs[0] in dmc.known;
    ok := dmc.SetSendCodecs(codecs);
    assert ok;
  }

  /** One accepted send of `payload` on a ready channel, with the test's two
      read-backs of the packet it emitted: the bytes after the RTP header,
      and the parsed header. Earlier packets stay as they were. */
  method SendAndReadBack(dmc: DataMediaChannel, timing: FakeTiming, iface: FakeNetworkInterface,
                         ssrc: uint32, clock: RtpClock, payload: seq<byte>)
    returns (ok: bool, sentData: seq<byte>, header: Header)
    requires ReadyToSend(dmc, timing, iface, ssrc, clock, |payload|)
    modifies dmc, iface
    ensures ok
    ensures ReadyToSend(dmc, timing, iface, ssrc, clock.Tick(), |payload|)
    ensures |iface.rtpPackets| == |old(iface.rtpPackets)| + 1
    ensures iface.rtpPackets[..|old(iface.rtpPackets)|] == old(iface.rtpPackets)
    ensures sentData == SentData(iface.rtpPackets[|old(iface.rtpPackets)|]) == Reserved + payload
    ensures ParseHeader(iface.rtpPackets[|old(iface.rtpPackets)|]) == Some(header)
    ensures header == Header(103, clock.NextSeqNum(), clock.TimestampAt(timing.now), ssrc)
  {
    ghost var expected := dmc.NextHeader(ssrc);
    SentPacket(expected, payload);
    assert payload[..|payload|] == payload;
    ok := dmc.SendData(SendDataParams(ssrc), Some(payload), |payload|);
    var packet := iface.rtpPackets[|iface.rtpPackets| - 1];
    sentData := SentData(packet);
    header := ParseHeader(packet).value;
  }

  /** "foo" sent on SSRC 41 of the first channel, then on SSRC 42 of the
      second: both sends succeed, and the two packets appended after the
      earlier ones carry each channel's next header. */
  method SendFooOnBoth(dmc1: DataMediaChannel, timing1: FakeTiming, dmc2: DataMediaChannel, timing2: FakeTiming,
                       iface: FakeNetworkInterface, clock1: RtpClock, clock2: RtpClock)
    returns (ok1: bool, ok2: bool)
    requires dmc1 != dmc2
    requires ReadyToSend(dmc1, timing1, iface, 41, clock1, |Foo|)
    requires ReadyToSend(dmc2, timing2, iface, 42, clock2, |Foo|)
    modifies dmc1, dmc2, iface
    ensures ok1 && ok2
    ensures ReadyToSend(dmc1, timing1, iface, 41, clock1.Tick(), |Foo|)
    ensures ReadyToSend(dmc2, timing2, iface, 42, clock2.Tick(), |Foo|)
    ensures |iface.rtpPackets| == |old(iface.rtpPackets)| + 2
    ensures iface.rtpPackets[..|old(iface.rtpPackets)|] == old(iface.rtpPackets)
    ensures ParseHeader(iface.rtpPackets[|old(iface.rtpPackets)|])
              == Some(Header(103, clock1.NextSeqNum(), clock1.TimestampAt(timing1.now), 41))
    ensures ParseHeader(iface.rtpPackets[|old(iface.rtpPackets)| + 1])
              == Some(Header(103, clock2.NextSeqNum(), clock2.TimestampAt(timing2.now), 42))
  {
    ghost var before := iface.rtpPackets;
    var okA, _, _ := SendAndReadBack(dmc1, timing1, iface, 41, clock1, Foo);
    ghost var middle := iface.rtpPackets;
    var okB, _, _ := SendAndReadBack(dmc2, timing2, iface, 42, clock2, Foo);
    assert iface.rtpPackets[|before|] == middle[|before|];
    ok1, ok2 := okA, okB;
  }

  /** One second passes on the first channel's clock, two on the second's;
      both channels stay ready to send. */
  method AdvanceClocks(dmc1: DataMediaChannel, timing1: FakeTiming, dmc2: DataMediaChannel, timing2: FakeTiming,
                       iface: FakeNetworkInterface, clock1: RtpClock, clock2: RtpClock)
    requires timing1 != timing2
    requires ReadyToSend(dmc1, timing1, iface, 41, clock1, |Foo|)
    requires ReadyToSend(dmc2, timing2, iface, 42, clock2, |Foo|)
    modifies timing1, timing2
    ensures ReadyToSend(dmc1, timing1, iface, 41, clock1, |Foo|)
    ensures ReadyToSend(dmc2, timing2, iface, 42, clock2, |Foo|)
    ensures timing1.now == 1 * ClockRate && timing2.now == 2 * ClockRate
  {
    timing1.SetNow(1 * ClockRate);
    timing2.SetNow(2 * ClockRate);
  }

  method SendDataMultipleClocksTest(seqBase1: uint16, offset1: uint32, seqBase2: uint16, offset2: uint32, maxDataLen: nat)
    requires |Foo| <= maxDataLen < 10_000_000
  {
    var iface := new FakeNetworkInterface();
    var timing1 := new FakeTiming();
    var dmc1 := CreateSender(timing1, iface, maxDataLen, 41, seqBase1, offset1);
    var timing2 := new FakeTiming();
    var dmc2 := CreateSender(timing2, iface, maxDataLen, 42, seqBase2, offset2);
    SendOnTwoClocks(dmc1, timing1, dmc2, timing2, iface, RtpClock(seqBase1, offset1), RtpClock(seqBase2, offset2));
  }

  /** The second half of the two-clock test: "foo" on both channels, the
      first clock moved to one second and the second to two, "foo" on both
      again; then the four headers are read back in sending order. */
  method SendOnTwoClocks(dmc1: DataMediaChannel, timing1: FakeTiming, dmc2: DataMediaChannel, timing2: FakeTiming,
                         iface: FakeNetworkInterface, clock1: RtpClock, clock2: RtpClock)
    requires dmc1 != dmc2 && timing1 != timing2
    requires ReadyToSend(dmc1, timing1, iface, 41, clock1, |Foo|)
    requires ReadyToSend(dmc2, timing2, iface, 42, clock2, |Foo|)
    requires timing1.now == 0 && timing2.now == 0 && iface.rtpPackets == []
    modifies dmc1, dmc2, timing1, timing2, iface
  {
    var ok1, ok2 := SendFooOnBoth(dmc1, timing1, dmc2, timing2, iface, clock1, clock2);
    assert ok1 && ok2;
    ghost var firstPair := iface.rtpPackets;
    AdvanceClocks(dmc1, timing1, dmc2, timing2, iface, clock1.Tick(), clock2.Tick());
    ok1, ok2 := SendFooOnBoth(dmc1, timing1, dmc2, timing2, iface, clock1.Tick(), clock2.Tick());
    assert ok1 && ok2;

    assert iface.NumRtpPackets() == 4;
    assert iface.rtpPackets[0] == firstPair[0] && iface.rtpPackets[1] == firstPair[1];
    var header1a := ParseHeader(iface.rtpPackets[0]).value;
    var header2a := ParseHeader(iface.rtpPackets[1]).value;
    var header1b := ParseHeader(iface.rtpPackets[2]).value;
    var header2b := ParseHeader(iface.rtpPackets[3]).value;
    // Each channel advances by its own clock: +1 and +90000 on the first,
    // +1 and +180000 on the second.
    HeadersAdvance(clock1, header1a, header1b, 90000);
    HeadersAdvance(clock2, header2a, header2b, 180000);
    assert SeqNumFollows(header1a, header1b) && header1b.timestamp == (header1a.timestamp + 90000) % 0x1_0000_0000;
    assert SeqNumFollows(header2a, header2b) && header2b.timestamp == (header2a.timestamp + 180000) % 0x1_0000_0000;
  }

  /** The channel receives the "abcde" packet; `receiver` gets it exactly
      when it is bound to SSRC 42 and the channel accepts the packet, and is
      unchanged otherwise. */
  method ReceiveAbcde(dmc: DataMediaChannel, receiver: FakeDataReceiver)
    requires dmc.Valid()
    modifies dmc.receivers.Values
    ensures dmc.Valid()
    ensures (&& dmc.receiving && FindCodecById(dmc.recvCodecs, 103).Some?
             && 42 in dmc.recvStreams && 42 in dmc.receivers && dmc.receivers[42] == receiver) ==>
              && receiver.hasReceivedData
              && receiver.lastReceivedData == Abcde && receiver.lastReceivedDataLen == 5
    ensures !(&& dmc.receiving && FindCodecById(dmc.recvCodecs, 103).Some?
              && 42 in dmc.recvStreams && 42 in dmc.receivers && dmc.receivers[42] == receiver) ==>
              unchanged(receiver)
  {
    AbcdeDelivery(dmc);
    dmc.OnPacketReceived(AbcdePacket);
  }

  method ReceiveDataTest(maxDataLen: nat)
    requires maxDataLen < 10_000_000
  {
    var iface := new FakeNetworkInterface();
    var timing := new FakeTiming();
    var receiver := new FakeDataReceiver();
    var dmc := CreateChannel(timing, iface, maxDataLen);

    // Receiving not enabled.
    ReceiveAbcde(dmc, receiver);
    assert !receiver.hasReceivedData;
    var ok := dmc.SetReceive(true);
    // Unknown payload type.
    ReceiveAbcde(dmc, receiver);
    assert !receiver.hasReceivedData;
    ok := dmc.SetRecvCodecs([Codec(103, GoogleDataCodecName)]);
    assert ok;
    // Unknown stream.
    ReceiveAbcde(dmc, receiver);
    assert !receiver.hasReceivedData;
    ok := dmc.AddRecvStream(StreamParams([42]));
    assert ok;
    // No receiver set.
    ReceiveAbcde(dmc, receiver);
    assert !receiver.hasReceivedData;
    dmc.SetReceiver(42, receiver);

    // Finally works.
    ReceiveAbcde(dmc, receiver);
    assert receiver.hasReceivedData;
    assert receiver.lastReceivedData == Abcde;
    assert receiver.lastReceivedDataLen == 5;
  }

  method InvalidRtpPacketsTest(maxDataLen: nat)
    requires maxDataLen < 10_000_000
  {
    var packet: seq<byte> := [0x80, 0x65, 0x00, 0x02];
    var iface := new FakeNetworkInterface();
    var timing := new FakeTiming();
    var receiver := new FakeDataReceiver();
    var dmc := CreateChannel(timing, iface, maxDataLen);
    // Too short.
    dmc.OnPacketReceived(packet);
    assert !receiver.hasReceivedData;
  }
}
