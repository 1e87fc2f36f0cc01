/** The amount of a margin change, from the bytes of its field to the serialized token and the screen. */
module MarginAmount {
  import opened Bytes
  import opened MessagePack
  import opened Serializer
  import opened Decoder
  import opened Tlv
  import opened Parsers
  import opened ActionParser
  import opened Review
  import opened ReviewProofs

  const NTLI_TAG := 0xd6

  /** The two's-complement reading of one to eight big-endian bytes, shorter ones extended with zeros. */
  function TwosComplement(v: seq<byte>): int {
    if FromBE(v) < 0x8000_0000_0000_0000 then FromBE(v) else FromBE(v) - 0x1_0000_0000_0000_0000
  }

  /** What a run of the margin parser makes of the amount fields it meets. */
  lemma {:induction false} RunReadsAmount(bs: seq<byte>, received: set<nat>, d: MarginDraft)
    requires RunTlv(MARGIN_SPEC, bs, received, d).Some?
    ensures var vs, r := Repeated(bs, NTLI_TAG), RunTlv(MARGIN_SPEC, bs, received, d).value;
            |vs| <= (if NTLI_TAG in received then 0 else 1)
            && if vs == [] then r.ntli == d.ntli
               else 1 <= |vs[0]| <= 8 && r.ntli.Some? && r.ntli.value == TwosComplement(vs[0])
    decreases |bs|
  {
    hide ReadField, FromBE, GetBool;
    if bs != [] {
      var (f, rest) := ReadField(bs).value;
      RunReadsAmount(rest, received + {f.tag}, HandleMargin(f, d).value);
    }
  }

  /**
   For every accepted margin structure there is exactly one amount field, of one to eight bytes, and its
   two's-complement reading is the amount that is stored, the last token that is serialized, what a decoder reads
   back from the bytes, and what the shown direction and magnitude stand for.
   */
  lemma AmountIsFaithful(bs: seq<byte>, metaAsset: u32, rest: seq<byte>)
    requires ParseMargin(bs, metaAsset).Some?
    ensures var b, vs := ParseMargin(bs, metaAsset).value, Repeated(bs, NTLI_TAG);
            |vs| == 1 && 1 <= |vs[0]| <= 8 && b.UpdateIsolatedMargin? && b.ntli == TwosComplement(vs[0])
            && BodyToks(b)[|BodyToks(b)| - 1] == Int(b.ntli)
            && DecodeBody(BodyBytes(b) + rest) == Some((b, rest))
            && TwosComplement(vs[0]) == if b.ntli < 0 then -(Magnitude(b.ntli) as int) else Magnitude(b.ntli)
  {
    hide RunTlv, Repeated, FromBE, BodyBytes, DecodeBody, Magnitude;
    RunReadsAmount(bs, {}, MarginDraft(None, None, None));
    var b := ParseMargin(bs, metaAsset).value;
    SerializationRoundTrip(b, rest);
    MagnitudeReadsBack(b.ntli);
  }
}
