# RTP-framed data channel

A Dafny model of libjingle's data media channel (`cricket::DataMediaChannel`,
created by `cricket::DataEngine`), as its unit tests in
`talk/session/phone/dataengine_unittest.cc` pin it down. The channel carries
opaque application bytes over RTP-framed packets:

- **Codec negotiation.** A send codec list is accepted when at least one
  entry is known to the engine (the Google data codec, id 103, name
  `google-data`). A receive codec list is accepted only when every entry is
  known.
- **Gates and registration.** Sending and receiving are switched on and off
  by flags. Send and receive streams are registered by SSRC, and receivers
  are bound to SSRCs.
- **Sending.** `SendData` refuses a call with no data, a negative or too
  large length, sending off, an unregistered SSRC, no negotiated codec or no
  network interface. Otherwise it emits one packet: the 12-byte RTP header
  of section 5.1 of RFC 3550, four zero bytes, then the payload. The
  sequence number goes up by one per packet on each SSRC. The timestamp
  follows the engine's clock at 90 kHz.
- **Receiving.** `OnPacketReceived` drops a packet that is too short. It
  also drops a packet when receiving is off, when the payload type is not
  a negotiated receive codec, when the SSRC is not a registered receive
  stream or when no receiver is bound to that SSRC. Otherwise it hands the
  bytes after the 16-byte framing to the receiver of that SSRC.

Layout, one module per file:

| file | module | contents |
|---|---|---|
| `wrappers.dfy` | `Wrappers` | `Option` |
| `bytes.dfy` | `Bytes` | byte, 16- and 32-bit types; big-endian encoding and decoding with round trips |
| `rtp.dfy` | `Rtp` | the header, framing and parsing; the per-stream RTP clock |
| `codecs.dfy` | `Codecs` | codecs and the searches the negotiation rules use |
| `streams.dfy` | `Streams` | stream and send/receive parameter records |
| `fakes.dfy` | `Fakes` | the settable clock, the recording network interface and the recording receiver the tests use |
| `dataengine.dfy` | `DataMedia` | the channel and the engine, as classes whose methods update their fields |
| `dataengine_test.dfy` | `DataEngineTest` | the five tests as client methods; each expectation is an assertion proved from the contracts |

The channel's implementation (`talk/session/phone/dataengine.cc`), the RTP
helpers (`rtputils.cc`) and the fake interface's header
(`fakenetworkinterface.h`) are not part of this model. Where the tests leave
the channel's behaviour open, the model makes these choices:

- **Per-SSRC clock.** Each registered send SSRC has its own RTP clock: the
  last sequence number and a random timestamp offset. The random starting
  values are parameters of `AddSendStream`, so every property holds for all
  of them.
- **Clock readings** are whole ticks of the 90 kHz RTP clock, not
  floating-point seconds. The timestamp is `(offset + now) mod 2^32`. Some
  descriptions give the timestamp as the clock reading times 90000, with no
  offset. The tests expect a non-zero timestamp at time zero (lines
  245-246), so the model follows the tests and keeps an offset.
- **Registration.** Registering an SSRC that is already registered is
  refused, and so is a stream with no SSRCs.
- **No interface.** `SendData` refuses the call when no network interface
  is set.
- **Short packets.** Packets of 12 to 15 bytes (a header, but no room for
  the reserved bytes) are dropped like shorter ones.
- **SSRC of the receive test's packet.** The test's comment on the receive
  packet (line 325) says SSRC 4. The bytes encode 42, and 42 is what the
  test registers, so the model uses 42.

## Model

| member | source | states |
|---|---|---|
| Bytes.ReadBe16 | talk/session/phone/dataengine_unittest.cc:148-153 | the 16-bit value read has the first byte as high byte and the second as low byte |
| Bytes.ReadBe32 | talk/session/phone/dataengine_unittest.cc:148-153 | the 32-bit value read has the first two bytes as high half and the last two as low half |
| Bytes.Be16RoundTrip | talk/session/phone/dataengine_unittest.cc:148-153 | reading back a big-endian 16-bit encoding gives the value |
| Bytes.ReadBe16RoundTrip | talk/session/phone/dataengine_unittest.cc:148-153 | encoding a read 16-bit value gives back the two bytes |
| Bytes.Be32RoundTrip | talk/session/phone/dataengine_unittest.cc:148-153 | reading back a big-endian 32-bit encoding gives the value |
| Bytes.ReadBe32RoundTrip | talk/session/phone/dataengine_unittest.cc:148-153 | encoding a read 32-bit value gives back the four bytes |
| Rtp.EncodeHeader | talk/session/phone/dataengine_unittest.cc:138-146 | an encoded RTP header is exactly 12 bytes |
| Rtp.ParseHeader | talk/session/phone/dataengine_unittest.cc:148-153 | a header is parsed exactly when the packet has at least 12 bytes |
| Rtp.ParseEncodeHeader | talk/session/phone/dataengine_unittest.cc:244-248 | parsing an encoded header, whatever follows it, gives back payload type, sequence number, timestamp and SSRC |
| Rtp.EncodeParseHeader | talk/session/phone/dataengine_unittest.cc:326-330 | a header with version byte 0x80 and marker bit 0 re-encodes to its own 12 bytes |
| Rtp.Packetize | talk/session/phone/dataengine_unittest.cc:197-200 | an outbound packet is 16 bytes longer than its payload |
| Rtp.Depacketize | talk/session/phone/dataengine_unittest.cc:373-384 | a packet is split exactly when it has at least 16 bytes; the header is the parsed one and the payload is all bytes after the 16th |
| Rtp.DepacketizePacketize | talk/session/phone/dataengine_unittest.cc:239-248 | splitting a framed packet gives back its header and its payload |
| Rtp.PacketizeDepacketize | talk/session/phone/dataengine_unittest.cc:326-330 | a packet with version byte 0x80, marker bit 0 and zero reserved bytes is re-framed byte for byte |
| Rtp.RtpClock.Tick | talk/session/phone/dataengine_unittest.cc:250-262 | after a send the clock keeps its timestamp offset and has handed out the next sequence number |
| Rtp.SuccessiveSends | talk/session/phone/dataengine_unittest.cc:250-262 | on one clock the next packet's sequence number is one more modulo 2^16, and its timestamp is the earlier one plus the elapsed ticks modulo 2^32; exactly +1 and +elapsed when nothing wraps |
| Rtp.FirstSeqNumNonZero | talk/session/phone/dataengine_unittest.cc:244-246 | the first sequence number of a clock is non-zero exactly when the random start is not 0xFFFF |
| Codecs.FindKnownCodec | talk/session/phone/dataengine_unittest.cc:183-185 | nothing is found only when no entry is known; what is found is the first known entry of the list |
| Codecs.FindUnknownCodec | talk/session/phone/dataengine_unittest.cc:186-188 | nothing is found only when every entry is known; what is found is an entry of the list that is not known |
| Codecs.FindCodecById | talk/session/phone/dataengine_unittest.cc:341-350 | nothing is found only when no entry has the id; what is found is an entry with that id |
| Codecs.SendRuleWeakerThanRecvRule | talk/session/phone/dataengine_unittest.cc:183-188 | some entry is known iff the search for a known entry finds one; some entry is unknown iff the search for an unknown entry finds one; a non-empty list that passes the receive rule passes the send rule |
| Streams.StreamParams.AddSsrc | talk/session/phone/dataengine_unittest.cc:219-221 | the stream gains the SSRC as its new last entry and keeps the earlier ones in order |
| Fakes.FakeTiming.constructor | talk/session/phone/dataengine_unittest.cc:42 | a new clock reads zero |
| Fakes.FakeTiming.SetNow | talk/session/phone/dataengine_unittest.cc:48-50 | the clock reads the value set |
| Fakes.FakeNetworkInterface.constructor | talk/session/phone/dataengine_unittest.cc:88 | a new interface has recorded no packets |
| Fakes.FakeNetworkInterface.NumRtpPackets | talk/session/phone/dataengine_unittest.cc:134-136 | the number of packets recorded so far, which `HasSentData(count)` compares with count |
| Fakes.FakeNetworkInterface.SendPacket | talk/session/phone/dataengine_unittest.cc:134-146 | each packet sent is appended to the recorded list, so packet i is the i-th sent |
| Fakes.FakeDataReceiver.constructor | talk/session/phone/dataengine_unittest.cc:58 | a new receiver has received nothing |
| Fakes.FakeDataReceiver.ReceiveData | talk/session/phone/dataengine_unittest.cc:60-67 | the receiver records that it was called, the first len bytes, len and the parameters |
| DataMedia.DataMediaChannel.constructor | talk/session/phone/dataengine_unittest.cc:108-111 | a new channel has nothing negotiated, nothing registered, both gates off and no interface |
| DataMedia.DataMediaChannel.SetInterface | talk/session/phone/dataengine_unittest.cc:110 | the interface is replaced and nothing else changes |
| DataMedia.DataMediaChannel.SendCodec | talk/session/phone/dataengine_unittest.cc:227-232 | the negotiated send codec is one the engine knows and one the send list names |
| DataMedia.DataMediaChannel.SetSendCodecs | talk/session/phone/dataengine_unittest.cc:183-185 | accepted iff some entry is known; an accepted list replaces the send codecs and the first known entry becomes the send codec; a refused one changes nothing |
| DataMedia.DataMediaChannel.SetRecvCodecs | talk/session/phone/dataengine_unittest.cc:186-188 | accepted iff every entry is known; an accepted list replaces the receive codecs; a refused one changes nothing; the receive codecs stay all known |
| DataMedia.DataMediaChannel.SetSend | talk/session/phone/dataengine_unittest.cc:213 | succeeds and sets the send gate; nothing else changes |
| DataMedia.DataMediaChannel.SetReceive | talk/session/phone/dataengine_unittest.cc:339 | succeeds and sets the receive gate; nothing else changes |
| DataMedia.DataMediaChannel.AddSendStream | talk/session/phone/dataengine_unittest.cc:279-284 | accepted iff the stream has SSRCs and none is registered; each new SSRC gets a clock at the random start; earlier clocks are kept |
| DataMedia.DataMediaChannel.AddRecvStream | talk/session/phone/dataengine_unittest.cc:356-358 | accepted iff the stream has SSRCs and none is registered; an accepted stream adds its SSRCs |
| DataMedia.DataMediaChannel.SetReceiver | talk/session/phone/dataengine_unittest.cc:364 | binds the receiver to the SSRC, replacing any earlier binding |
| DataMedia.DataMediaChannel.NextHeader | talk/session/phone/dataengine_unittest.cc:244-248 | the next header carries the SSRC, the negotiated codec's id, the stream's next sequence number and the timestamp for the current clock reading |
| DataMedia.DataMediaChannel.NextPacket | talk/session/phone/dataengine_unittest.cc:238-248 | the emitted packet is 16 + len bytes, its reserved bytes are zero, it ends with the first len data bytes, and it parses back to the next header and that payload |
| DataMedia.DataMediaChannel.SendData | talk/session/phone/dataengine_unittest.cc:202-262 | true iff data, length, send gate, stream, codec and interface all pass; then exactly that packet is appended and only that stream's clock advances; otherwise nothing changes |
| DataMedia.DataMediaChannel.Delivery | talk/session/phone/dataengine_unittest.cc:335-370 | a packet is delivered only if it has 16 bytes, receiving is on, its payload type is a receive codec, and its SSRC is registered with a receiver bound; the payload is all bytes after the 16th; any failed check drops it |
| DataMedia.DataMediaChannel.OnPacketReceived | talk/session/phone/dataengine_unittest.cc:366-370 | a delivered packet's payload, length and SSRC reach the receiver of that SSRC and no other receiver changes; a dropped packet changes no receiver |
| DataMedia.Loopback | talk/session/phone/dataengine_unittest.cc:239-248 | a packet one channel sends reaches another channel's receiver iff that channel is receiving, knows the payload type and has the SSRC registered with a receiver, and then carries exactly the sent header and payload |
| DataMedia.DataEngine.constructor | talk/session/phone/dataengine_unittest.cc:98-102 | an engine knows only the Google data codec and starts with its own clock at zero |
| DataMedia.DataEngine.SetTiming | talk/session/phone/dataengine_unittest.cc:100 | the engine uses the given clock |
| DataMedia.DataEngine.CreateChannel | talk/session/phone/dataengine_unittest.cc:108-111 | a new channel bound to the engine's codecs and clock, in its initial state |
| DataEngineTest.AbcdePacketFrame | talk/session/phone/dataengine_unittest.cc:325-330 | the receive test's packet parses to payload type 103, sequence number 2, timestamp 3, SSRC 42 and payload "abcde" |
| DataEngineTest.AbcdeDelivery | talk/session/phone/dataengine_unittest.cc:335-370 | in any channel state that packet is delivered iff receiving is on, 103 is a receive codec, and 42 is registered with a receiver bound |
| DataEngineTest.SentData | talk/session/phone/dataengine_unittest.cc:138-146 | a packet longer than 12 bytes gives the bytes after the 12th, in order; a shorter one gives nothing |
| DataEngineTest.SentPacket | talk/session/phone/dataengine_unittest.cc:138-153 | the test's read-backs of a sent packet give its header, then the four zero bytes and the payload |
| DataEngineTest.SeqNumFollowsAsWrittenFailsAtWrap | talk/session/phone/dataengine_unittest.cc:261 | the sequence-number expectation as written fails for a clock whose first packet carries 0xFFFF |
| DataEngineTest.HeadersAdvance | talk/session/phone/dataengine_unittest.cc:318-321 | two packets on one clock, the second sent after a given number of ticks: sequence number +1 modulo 2^16, timestamp + elapsed ticks modulo 2^32 |
| DataEngineTest.CreateChannel | talk/session/phone/dataengine_unittest.cc:104-112 | the test fixture: a fresh channel of a fresh engine, with the given clock and interface |
| DataEngineTest.CreateSender | talk/session/phone/dataengine_unittest.cc:267-292 | a channel with sending on, one SSRC registered at the random start, and the Google data codec negotiated |
| DataEngineTest.SendAndReadBack | talk/session/phone/dataengine_unittest.cc:239-248 | the send returns true and appends one packet after the earlier ones, which stay as they were; its data read-back is four zero bytes and the payload; its header has the stream's next values; the channel stays ready with its clock advanced |
| DataEngineTest.SendFooOnBoth | talk/session/phone/dataengine_unittest.cc:301-302 | both sends of "foo" return true; the two packets are appended in order after the earlier ones, which stay as they were, each with its own channel's next header |
| DataEngineTest.AdvanceClocks | talk/session/phone/dataengine_unittest.cc:304-307 | the two engines' clocks move independently, to one and two seconds |
| DataEngineTest.ReceiveAbcde | talk/session/phone/dataengine_unittest.cc:335-370 | the receiver gets "abcde" and length 5 when it is bound to 42 and the channel accepts the packet; in every other case it is unchanged |

The five tests themselves are `DataEngineTest.SetUnknownCodecsTest`,
`SendDataTest` with `SendDataConfigured` and `SendDataSucceeds`,
`SendDataMultipleClocksTest` with `SendOnTwoClocks`, `ReceiveDataTest` and
`InvalidRtpPacketsTest`. They have no postconditions. Their assertions are
the tests' expectations, proved for every random start and every payload
bound.

## Findings

| source | as written | input that shows it | evidently intended | confidence | as-written member | corrected member |
|---|---|---|---|---|---|---|
| talk/session/phone/dataengine_unittest.cc:261 | `header0.seq_num + 1 == header1.seq_num` compares sequence numbers as plain integers (also lines 318 and 320) | a random start of 0xFFFE: the first packet carries 0xFFFF, the second 0, and 0xFFFF + 1 is 0x10000 | the successor modulo 2^16, since RTP sequence numbers wrap | medium (depends on the random start reaching 0xFFFE); not executed | DataEngineTest.SeqNumFollowsAsWrittenFailsAtWrap | DataEngineTest.HeadersAdvance |

## Left out

- `talk/base/linuxwindowpicker_unittest.cc`: it is about X11 window enumeration through foreign calls, not the data channel.
- Floating-point clock readings: `set_now` takes seconds as a `double`. The model takes whole 90 kHz ticks, so rounding of fractional seconds is not modelled.
- Randomness: the random start of the sequence number and the timestamp is a parameter of `AddSendStream`. How it is drawn is not modelled.
- Ownership and lifetime (`scoped_ptr`, the engine owning its clock) are not modelled; Dafny objects are garbage-collected.
- `Receiver` and `NetworkInterface` are interfaces in C++. The model uses the fake receiver and fake interface classes directly, so other implementations are not covered.
- `talk_base::Timing` is an interface in C++ as well. The channel and the engine hold a `FakeTiming` directly, and an engine whose clock is never set has a fresh `FakeTiming` that reads zero rather than a real clock. Real clock readings are not modelled.
- The exact payload limit of the channel is not known here. It is the engine's `maxDataLen` parameter, required to be below 10000000 as the length-too-large case needs.
- `FakeNetworkInterface`'s RTCP packets, options and other members do not appear in the tests and are not modelled.
- DataEngineTest.SendDataSucceeds: the non-zero sequence-number and timestamp expectations (lines 245-246) are proved only for a random start other than 0xFFFF and a timestamp offset other than 0, since the start is arbitrary.
