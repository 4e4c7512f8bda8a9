/** Data codecs and the membership searches used to negotiate them. A codec
    matches a known codec when both its id and its name are equal. */
module Codecs {
  import opened Wrappers

  datatype Codec = Codec(id: int, name: string)

  const GoogleDataCodecName: string := "google-data"
  const GoogleDataCodecId: int := 103
  /** The one codec a data engine understands. */
  const GoogleDataCodec: Codec := Codec(GoogleDataCodecId, GoogleDataCodecName)

  /** Entry `i` is known and none before it is. */
  ghost predicate FirstKnownAt(codecs: seq<Codec>, known: seq<Codec>, i: int)
  {
    0 <= i < |codecs| && codecs[i] in known && forall j | 0 <= j < i :: codecs[j] !in known
  }

  /** The first entry of `codecs` that is known, if any: what send-codec
      negotiation selects. */
  function FindKnownCodec(codecs: seq<Codec>, known: seq<Codec>): (r: Option<Codec>)
    ensures r.None? ==> forall i | 0 <= i < |codecs| :: codecs[i] !in known
    ensures r.Some? ==> exists i :: FirstKnownAt(codecs, known, i) && codecs[i] == r.value
  {
    if codecs == [] then None
    else if codecs[0] in known then Some(codecs[0])
    else
      var r := FindKnownCodec(codecs[1..], known);
      assert r.Some? ==> exists i :: FirstKnownAt(codecs, known, i) && codecs[i] == r.value by {
        if r.Some? {
          var i :| FirstKnownAt(codecs[1..], known, i) && codecs[1..][i] == r.value;
          assert FirstKnownAt(codecs, known, i + 1);
        }
      }
      r
  }

  /** The first entry of `codecs` that is not known, if any: receive-codec
      negotiation refuses a list for which there is one. */
  function FindUnknownCodec(codecs: seq<Codec>, known: seq<Codec>): (r: Option<Codec>)
    ensures r.None? ==> forall i | 0 <= i < |codecs| :: codecs[i] in known
    ensures r.Some? ==> r.value in codecs && r.value !in known
  {
    if codecs == [] then None
    else if codecs[0] !in known then Some(codecs[0])
    else
      var r := FindUnknownCodec(codecs[1..], known);
      assert forall i | 0 < i < |codecs| :: codecs[i] == codecs[1..][i - 1];
      r
  }

  /** The entry of `codecs` whose id is `id`, if any: how an inbound payload
      type is looked up among the receive codecs. */
  function FindCodecById(codecs: seq<Codec>, id: int): (r: Option<Codec>)
    ensures r.None? ==> forall i | 0 <= i < |codecs| :: codecs[i].id != id
    ensures r.Some? ==> r.value in codecs && r.value.id == id
  {
    if codecs == [] then None
    else if codecs[0].id == id then Some(codecs[0])
    else
      var r := FindCodecById(codecs[1..], id);
      assert forall i | 0 < i < |codecs| :: codecs[i] == codecs[1..][i - 1];
      r
  }

  /** The two negotiation rules side by side: a list every entry of which is
      known also has a known entry unless it is empty, and a list with a
      known and an unknown entry passes the send rule and fails the receive
      rule. */
  lemma {:induction false} SendRuleWeakerThanRecvRule(codecs: seq<Codec>, known: seq<Codec>)
    ensures FindUnknownCodec(codecs, known).None? && codecs != [] ==> FindKnownCodec(codecs, known).Some?
    ensures (exists i | 0 <= i < |codecs| :: codecs[i] in known) <==> FindKnownCodec(codecs, known).Some?
    ensures (exists i | 0 <= i < |codecs| :: codecs[i] !in known) <==> FindUnknownCodec(codecs, known).Some?
  {
    if FindUnknownCodec(codecs, known).None? && codecs != [] {
      assert codecs[0] in known;
    }
  }
}
