/** The parameter records passed to and from a data channel. */
module Streams {
  import opened Bytes

  /** One logical stream, identified by its SSRCs (in the order added). */
  datatype StreamParams = StreamParams(ssrcs: seq<uint32>)
  {
    /** The stream with one more SSRC, as `add_ssrc` does. */
    function AddSsrc(ssrc: uint32): (s: StreamParams)
      ensures |s.ssrcs| == |ssrcs| + 1 && s.ssrcs[|ssrcs|] == ssrc
      ensures forall i | 0 <= i < |ssrcs| :: s.ssrcs[i] == ssrcs[i]
    {
      StreamParams(ssrcs + [ssrc])
    }
  }

  /** Which registered send stream a payload goes out on. */
  datatype SendDataParams = SendDataParams(ssrc: uint32)

  /** Which stream an inbound payload arrived on. */
  datatype ReceiveDataParams = ReceiveDataParams(ssrc: uint32)
}
