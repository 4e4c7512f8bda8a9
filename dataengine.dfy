/** The RTP-framed data channel and the engine that creates it. */
module DataMedia {
  import opened Wrappers
  import opened Bytes
  import opened Rtp
  import opened Codecs
  import opened Streams
  import opened Fakes

  /** True when every codec in `codecs` has an id that fits the 7-bit
      payload-type field. */
  predicate PayloadTypeIds(codecs: seq<Codec>)
  {
    forall i | 0 <= i < |codecs| :: 0 <= codecs[i].id < 0x80
  }

  /** A data channel: negotiated codecs, send/receive gates, registered
      streams with their RTP clocks, receivers bound by SSRC. */
  class DataMediaChannel {
    /** The codecs the creating engine understands. */
    const known: seq<Codec>
    /** Longest payload SendData accepts. */
    const maxDataLen: nat
    /** The clock of the creating engine. */
    const timing: FakeTiming

    var iface: FakeNetworkInterface?
    var sending: bool
    var receiving: bool
    var sendCodecs: seq<Codec>
    var recvCodecs: seq<Codec>
    /** Registered send SSRCs, each with its RTP clock. */
    var sendStreams: map<uint32, RtpClock>
    var recvStreams: set<uint32>
    var receivers: map<uint32, FakeDataReceiver>

    /** The channel invariant: known codec ids are payload types, and the
        receive codecs are all known. */
    ghost predicate Valid()
      reads this
    {
      PayloadTypeIds(known) && FindUnknownCodec(recvCodecs, known).None?
    }

    constructor (known: seq<Codec>, maxDataLen: nat, timing: FakeTiming)
      requires PayloadTypeIds(known)
      ensures Valid()
      ensures this.known == known && this.maxDataLen == maxDataLen && this.timing == timing
      ensures iface == null && !sending && !receiving
      ensures sendCodecs == [] && recvCodecs == []
      ensures sendStreams == map[] && recvStreams == {} && receivers == map[]
    {
      this.known := known;
      this.maxDataLen := maxDataLen;
      this.timing := timing;
      iface := null;
      sending, receiving := false, false;
      sendCodecs, recvCodecs := [], [];
      sendStreams, recvStreams, receivers := map[], {}, map[];
    }

    method SetInterface(iface: FakeNetworkInterface)
      modifies this
      ensures this.iface == iface
      ensures sending == old(sending) && receiving == old(receiving)
      ensures sendCodecs == old(sendCodecs) && recvCodecs == old(recvCodecs)
      ensures sendStreams == old(sendStreams) && recvStreams == old(recvStreams)
      ensures receivers == old(receivers)
    {
      this.iface := iface;
    }

    /** The negotiated send codec: the first known entry of the send list. */
    function SendCodec(): (c: Option<Codec>)
      reads this
      ensures c.Some? ==> c.value in known && c.value in sendCodecs
    {
      FindKnownCodec(sendCodecs, known)
    }

    /** Accepts the list when at least one entry is known; otherwise the
        previous negotiation stands. */
    method SetSendCodecs(codecs: seq<Codec>) returns (ok: bool)
      requires Valid()
      modifies this
      ensures Valid()
      ensures ok <==> exists i | 0 <= i < |codecs| :: codecs[i] in known
      ensures sendCodecs == (if ok then codecs else old(sendCodecs))
      ensures ok ==> SendCodec() == FindKnownCodec(codecs, known)
      ensures iface == old(iface) && sending == old(sending) && receiving == old(receiving)
      ensures recvCodecs == old(recvCodecs)
      ensures sendStreams == old(sendStreams) && recvStreams == old(recvStreams)
      ensures receivers == old(receivers)
    {
      SendRuleWeakerThanRecvRule(codecs, known);
      ok := FindKnownCodec(codecs, known).Some?;
      if ok {
        sendCodecs := codecs;
      }
    }

    /** Accepts the list only when every entry is known; otherwise the
        previous negotiation stands. */
    method SetRecvCodecs(codecs: seq<Codec>) returns (ok: bool)
      requires Valid()
      modifies this
      ensures Valid()
      ensures ok <==> forall i | 0 <= i < |codecs| :: codecs[i] in known
      ensures recvCodecs == (if ok then codecs else old(recvCodecs))
      ensures iface == old(iface) && sending == old(sending) && receiving == old(receiving)
      ensures sendCodecs == old(sendCodecs)
      ensures sendStreams == old(sendStreams) && recvStreams == old(recvStreams)
      ensures receivers == old(receivers)
    {
      ok := FindUnknownCodec(codecs, known).None?;
      if ok {
        recvCodecs := codecs;
      }
    }

    method SetSend(send: bool) returns (ok: bool)
      requires Valid()
      modifies this
      ensures Valid() && ok
      ensures sending == send && receiving == old(receiving) && iface == old(iface)
      ensures sendCodecs == old(sendCodecs) && recvCodecs == old(recvCodecs)
      ensures sendStreams == old(sendStreams) && recvStreams == old(recvStreams)
      ensures receivers == old(receivers)
    {
      sending := send;
      ok := true;
    }

    method SetReceive(receive: bool) returns (ok: bool)
      requires Valid()
      modifies this
      ensures Valid() && ok
      ensures receiving == receive && sending == old(sending) && iface == old(iface)
      ensures sendCodecs == old(sendCodecs) && recvCodecs == old(recvCodecs)
      ensures sendStreams == old(sendStreams) && recvStreams == old(recvStreams)
      ensures receivers == old(receivers)
    {
      receiving := receive;
      ok := true;
    }

    /** Registers every SSRC of `stream` for sending, each with a new RTP
        clock started at the random values `seqBase` and `timestampOffset`.
        A stream without SSRCs, or with one already registered, is refused. */
    method AddSendStream(stream: StreamParams, seqBase: uint16, timestampOffset: uint32) returns (ok: bool)
      requires Valid()
      modifies this
      ensures Valid()
      ensures ok <==> stream.ssrcs != [] && forall i | 0 <= i < |stream.ssrcs| :: stream.ssrcs[i] !in old(sendStreams)
      ensures ok ==> sendStreams.Keys == old(sendStreams).Keys + set s | s in stream.ssrcs
      ensures ok ==> forall s | s in stream.ssrcs :: sendStreams[s] == RtpClock(seqBase, timestampOffset)
      ensures forall s | s in old(sendStreams) :: s in sendStreams && sendStreams[s] == old(sendStreams)[s]
      ensures !ok ==> sendStreams == old(sendStreams)
      ensures iface == old(iface) && sending == old(sending) && receiving == old(receiving)
      ensures sendCodecs == old(sendCodecs) && recvCodecs == old(recvCodecs)
      ensures recvStreams == old(recvStreams) && receivers == old(receivers)
    {
      ok := stream.ssrcs != [] && forall i | 0 <= i < |stream.ssrcs| :: stream.ssrcs[i] !in sendStreams;
      if ok {
        var added := map s | s in stream.ssrcs :: RtpClock(seqBase, timestampOffset);
        sendStreams := sendStreams + added;
      }
    }

    /** Registers every SSRC of `stream` for receiving. A stream without
        SSRCs, or with one already registered, is refused. */
    method AddRecvStream(stream: StreamParams) returns (ok: bool)
      requires Valid()
      modifies this
      ensures Valid()
      ensures ok <==> stream.ssrcs != [] && forall i | 0 <= i < |stream.ssrcs| :: stream.ssrcs[i] !in old(recvStreams)
      ensures recvStreams == if ok then old(recvStreams) + set s | s in stream.ssrcs else old(recvStreams)
      ensures iface == old(iface) && sending == old(sending) && receiving == old(receiving)
      ensures sendCodecs == old(sendCodecs) && recvCodecs == old(recvCodecs)
      ensures sendStreams == old(sendStreams) && receivers == old(receivers)
    {
      ok := stream.ssrcs != [] && forall i | 0 <= i < |stream.ssrcs| :: stream.ssrcs[i] !in recvStreams;
      if ok {
        recvStreams := recvStreams + set s | s in stream.ssrcs;
      }
    }

    /** Binds `receiver` to `ssrc`, registered or not. */
    method SetReceiver(ssrc: uint32, receiver: FakeDataReceiver)
      requires Valid()
      modifies this
      ensures Valid()
      ensures receivers == old(receivers)[ssrc := receiver]
      ensures iface == old(iface) && sending == old(sending) && receiving == old(receiving)
      ensures sendCodecs == old(sendCodecs) && recvCodecs == old(recvCodecs)
      ensures sendStreams == old(sendStreams) && recvStreams == old(recvStreams)
    {
      receivers := receivers[ssrc := receiver];
    }

    /** Whether SendData accepts a call: data present, length within
        [0, maxDataLen], sending enabled, the SSRC a registered send stream,
        a send codec negotiated and an interface to send through. */
    predicate SendAccepted(params: SendDataParams, data: Option<seq<byte>>, len: int)
      reads this
    {
      && data.Some?
      && 0 <= len <= maxDataLen
      && sending
      && params.ssrc in sendStreams
      && SendCodec().Some?
      && iface != null
    }

    /** The header of the next packet on `ssrc`: the negotiated codec's id,
        the stream's next sequence number and the timestamp for the current
        clock reading. */
    function NextHeader(ssrc: uint32): (h: Header)
      requires Valid() && ssrc in sendStreams && SendCodec().Some?
      reads this, timing
      ensures h.ssrc == ssrc && h.payloadType == SendCodec().value.id
      ensures h.seqNum == sendStreams[ssrc].NextSeqNum()
      ensures h.timestamp == sendStreams[ssrc].TimestampAt(timing.now)
    {
      var c := sendStreams[ssrc];
      Header(SendCodec().value.id, c.NextSeqNum(), c.TimestampAt(timing.now), ssrc)
    }

    /** The packet an accepted SendData emits: 16 + len bytes whose header
        parses to the stream's SSRC and the negotiated payload type, then
        four zero bytes, then the first len data bytes. */
    function NextPacket(params: SendDataParams, data: Option<seq<byte>>, len: int): (p: seq<byte>)
      requires Valid() && SendAccepted(params, data, len) && len <= |data.value|
      reads this, timing
      ensures |p| == FramingLen + len
      ensures p[HeaderLen..FramingLen] == Reserved && p[FramingLen..] == data.value[..len]
      ensures Depacketize(p) == Some(Frame(NextHeader(params.ssrc), data.value[..len]))
      ensures ParseHeader(p).Some? && ParseHeader(p).value.ssrc == params.ssrc
      ensures ParseHeader(p).value.payloadType == SendCodec().value.id
    {
      var h := NextHeader(params.ssrc);
      DepacketizePacketize(h, data.value[..len]);
      Packetize(h, data.value[..len])
    }

    /** Sends `len` bytes of `data` on the stream `params.ssrc`. A refused
        call returns false and changes nothing; an accepted one emits one
        packet and advances that stream's sequence number. */
    method SendData(params: SendDataParams, data: Option<seq<byte>>, len: int) returns (ok: bool)
      requires Valid()
      requires data.Some? && 0 <= len <= maxDataLen ==> len <= |data.value|
      modifies this, iface
      ensures Valid()
      ensures ok == old(SendAccepted(params, data, len))
      ensures iface == old(iface) && sending == old(sending) && receiving == old(receiving)
      ensures ok ==> iface.rtpPackets == old(iface.rtpPackets) + [Packetize(old(NextHeader(params.ssrc)), data.value[..len])]
      ensures ok ==> sendStreams == old(sendStreams)[params.ssrc := old(sendStreams[params.ssrc]).Tick()]
      ensures !ok ==> sendStreams == old(sendStreams)
      ensures !ok && iface != null ==> iface.rtpPackets == old(iface.rtpPackets)
      ensures sendCodecs == old(sendCodecs) && recvCodecs == old(recvCodecs)
      ensures recvStreams == old(recvStreams) && receivers == old(receivers)
    {
      ok := SendAccepted(params, data, len);
      if !ok {
        return;
      }
      var packet := NextPacket(params, data, len);
      sendStreams := sendStreams[params.ssrc := sendStreams[params.ssrc].Tick()];
      iface.SendPacket(packet);
    }

    /** The frame an inbound packet delivers, if it passes every check: long
        enough for the header and the reserved bytes, receiving enabled, a
        negotiated receive codec with its payload type, its SSRC a registered
        receive stream with a receiver bound. */
    function Delivery(packet: seq<byte>): (d: Option<Frame>)
      reads this
      ensures |packet| < HeaderLen || !receiving ==> d.None?
      ensures d.Some? ==> |packet| >= FramingLen && receiving
      ensures d.Some? ==> d.value.header.payloadType == packet[1] % 0x80
      ensures d.Some? ==> d.value.header.ssrc == ReadBe32(packet[8..12])
      ensures d.Some? ==> FindCodecById(recvCodecs, packet[1] % 0x80).Some?
      ensures d.Some? ==> d.value.header.ssrc in recvStreams && d.value.header.ssrc in receivers
      ensures d.Some? ==> d.value.payload == packet[FramingLen..]
      ensures d.None? && |packet| >= FramingLen && receiving ==>
                var h := ParseHeader(packet).value;
                FindCodecById(recvCodecs, h.payloadType).None? || h.ssrc !in recvStreams || h.ssrc !in receivers
    {
      match Depacketize(packet)
      case None => None
      case Some(f) =>
        if receiving && FindCodecById(recvCodecs, f.header.payloadType).Some?
           && f.header.ssrc in recvStreams && f.header.ssrc in receivers
        then Some(f)
        else None
    }

    /** Hands the payload of an accepted inbound packet to the receiver bound
        to its SSRC; any other packet is dropped without effect. */
    method OnPacketReceived(packet: seq<byte>)
      requires Valid()
      modifies receivers.Values
      ensures Valid()
      ensures Delivery(packet).Some? ==>
                var f := Delivery(packet).value;
                var r := receivers[f.header.ssrc];
                && r.hasReceivedData
                && r.lastReceivedData == f.payload
                && r.lastReceivedDataLen == |packet| - FramingLen
                && r.lastReceivedDataParams == ReceiveDataParams(f.header.ssrc)
      ensures Delivery(packet).None? ==> forall r | r in receivers.Values :: unchanged(r)
      ensures Delivery(packet).Some? ==>
                forall r | r in receivers.Values && r != receivers[Delivery(packet).value.header.ssrc] :: unchanged(r)
    {
      var d := Delivery(packet);
      if d.None? {
        return;
      }
      var f := d.value;
      var r := receivers[f.header.ssrc];
      r.ReceiveData(ReceiveDataParams(f.header.ssrc), f.payload, |f.payload|);
    }
  }

  /** A packet one channel sends, handed to another channel, delivers the
      sent header and payload exactly when the receiving side is receiving,
      knows the payload type and has the SSRC registered with a receiver
      bound; otherwise it is dropped. */
  lemma Loopback(sender: DataMediaChannel, receiver: DataMediaChannel,
                 params: SendDataParams, data: Option<seq<byte>>, len: int)
    requires sender.Valid() && sender.SendAccepted(params, data, len) && len <= |data.value|
    ensures var p := sender.NextPacket(params, data, len);
            && (receiver.Delivery(p).Some? <==>
                  && receiver.receiving
                  && FindCodecById(receiver.recvCodecs, sender.SendCodec().value.id).Some?
                  && params.ssrc in receiver.recvStreams && params.ssrc in receiver.receivers)
            && (receiver.Delivery(p).Some? ==>
                  receiver.Delivery(p).value == Frame(sender.NextHeader(params.ssrc), data.value[..len]))
  {
  }

  /** Creates data channels that share its clock and its known codecs. */
  class DataEngine {
    const known: seq<Codec> := [GoogleDataCodec]
    const maxDataLen: nat
    var timing: FakeTiming

    /** An engine that knows the Google data codec and whose channels take
        payloads of at most `maxDataLen` bytes. */
    constructor (maxDataLen: nat)
      requires maxDataLen < 10_000_000
      ensures known == [GoogleDataCodec] && this.maxDataLen == maxDataLen
      ensures fresh(timing) && timing.now == 0
    {
      this.maxDataLen := maxDataLen;
      timing := new FakeTiming();
    }

    method SetTiming(timing: FakeTiming)
      modifies this
      ensures this.timing == timing
    {
      this.timing := timing;
    }

    /** A new channel in its initial state, bound to this engine's codecs
        and clock. */
    method CreateChannel() returns (c: DataMediaChannel)
      ensures fresh(c) && c.Valid()
      ensures c.known == known && c.maxDataLen == maxDataLen && c.timing == timing
      ensures c.iface == null && !c.sending && !c.receiving
      ensures c.sendCodecs == [] && c.recvCodecs == []
      ensures c.sendStreams == map[] && c.recvStreams == {} && c.receivers == map[]
    {
      c := new DataMediaChannel(known, maxDataLen, timing);
    }
  }
}
