/** The collaborators the channel is exercised against: a settable clock, a
    network interface that records every outbound packet, and a receiver
    that records the last payload handed to it. */
module Fakes {
  import opened Bytes
  import opened Streams

  /** A clock whose reading is set by hand. Time is kept in ticks of the
      90 kHz RTP clock, so one second is 90000 ticks. */
  class FakeTiming {
    var now: nat

    constructor ()
      ensures now == 0
    {
      now := 0;
    }

    method SetNow(now: nat)
      modifies this
      ensures this.now == now
    {
      this.now := now;
    }
  }

  /** A network interface that keeps every RTP packet sent through it. */
  class FakeNetworkInterface {
    var rtpPackets: seq<seq<byte>>

    constructor ()
      ensures rtpPackets == []
    {
      rtpPackets := [];
    }

    method SendPacket(packet: seq<byte>)
      modifies this
      ensures rtpPackets == old(rtpPackets) + [packet]
    {
      rtpPackets := rtpPackets + [packet];
    }

    /** How many RTP packets have been sent through the interface. */
    function NumRtpPackets(): (n: nat)
      reads this
      ensures n == |rtpPackets|
    {
      |rtpPackets|
    }
  }

  /** A receiver that remembers whether, and with what, it was last called. */
  class FakeDataReceiver {
    var hasReceivedData: bool
    var lastReceivedData: seq<byte>
    var lastReceivedDataLen: nat
    var lastReceivedDataParams: ReceiveDataParams

    constructor ()
      ensures !hasReceivedData
    {
      hasReceivedData := false;
      lastReceivedData := [];
      lastReceivedDataLen := 0;
      lastReceivedDataParams := ReceiveDataParams(0);
    }

    /** Takes the first `len` bytes of `data` as the payload. */
    method ReceiveData(params: ReceiveDataParams, data: seq<byte>, len: nat)
      requires len <= |data|
      modifies this
      ensures hasReceivedData
      ensures lastReceivedData == data[..len] && lastReceivedDataLen == len
      ensures lastReceivedDataParams == params
    {
      hasReceivedData := true;
      lastReceivedData := data[..len];
      lastReceivedDataLen := len;
      lastReceivedDataParams := params;
    }
  }
}
