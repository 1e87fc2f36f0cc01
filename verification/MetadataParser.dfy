/** The action metadata: parsed, and accepted only with a valid signature over everything else in it. */
module MetadataParser {
  import opened Bytes
  import opened Model
  import opened Tlv
  import opened Parsers

  /** Whether a signature by the metadata key over these bytes is valid. */
  type Pki = (seq<byte>, seq<byte>) -> bool

  const SIGNATURE_TAG := 0x15

  function OpTypeOf(n: nat): Option<OpType> {
    match n
    case 0 => Some(OpOrder) case 1 => Some(OpModify) case 2 => Some(OpCancel) case 4 => Some(OpClose)
    case 5 => Some(OpUpdateMargin) case 6 => Some(OpCancelSl) case 7 => Some(OpCancelTp) case 8 => Some(OpCancelTpSl)
    case _ => None
  }

  function OpTypeCode(t: OpType): byte {
    match t
    case OpOrder => 0 case OpModify => 1 case OpCancel => 2 case OpClose => 4
    case OpUpdateMargin => 5 case OpCancelSl => 6 case OpCancelTp => 7 case OpCancelTpSl => 8
  }

  function NetworkOf(n: nat): Option<Network> {
    match n case 0 => Some(Mainnet) case 1 => Some(Testnet) case _ => None
  }

  function NetworkCode(n: Network): byte { if n == Mainnet then 0 else 1 }

  datatype MetadataDraft = MetadataDraft(
    hashed: seq<byte>,               // every raw field so far but the signature
    structType: bool,
    version: bool,
    opType: Option<OpType>,
    assetId: Option<u32>,
    ticker: Option<Ticker>,
    network: Option<Network>,
    builderAddr: Option<Address>,
    margin: Option<u64>,
    leverage: Option<u32>,
    signature: Option<seq<byte>>)

  const NO_METADATA := MetadataDraft([], false, false, None, None, None, None, None, None, None, None)

  function FillMetadata(f: Field, d: MetadataDraft): Option<MetadataDraft> {
    match f.tag
    case 0x01 => var n :- GetCode(f.value); if n == 0x2b then Some(d.(structType := true)) else None
    case 0x02 => var n :- GetCode(f.value); if n == 1 then Some(d.(version := true)) else None
    case 0xd0 => var n :- GetCode(f.value); var t :- OpTypeOf(n); Some(d.(opType := Some(t)))
    case 0xd1 => var n :- GetU32(f.value); Some(d.(assetId := Some(n)))
    case 0x24 => var s :- GetText(f.value, ASSET_TICKER_LENGTH); Some(d.(ticker := Some(s)))
    case 0xd2 => var n :- GetCode(f.value); var w :- NetworkOf(n); Some(d.(network := Some(w)))
    case 0xd3 => var a :- GetBuffer(f.value, ADDRESS_LENGTH); Some(d.(builderAddr := Some(a)))
    case 0xd4 => var n :- GetU64(f.value); Some(d.(margin := Some(n)))
    case 0xd5 => var n :- GetU32(f.value); Some(d.(leverage := Some(n)))
    case _ => if 70 <= |f.value| <= 72 then Some(d.(signature := Some(f.value))) else None
  }

  /** The tag's own handler, and the common one that hashes the field unless it is the signature. */
  function HandleMetadata(f: Field, d: MetadataDraft): Option<MetadataDraft> {
    FillMetadata(f, if f.tag == SIGNATURE_TAG then d else d.(hashed := d.hashed + f.raw))
  }

  const METADATA_SPEC := Spec(map[0x01 := true, 0x02 := true, 0xd0 := true, 0xd1 := true, 0x24 := true, 0xd2 := true,
                                  0xd3 := true, 0xd4 := true, 0xd5 := true, 0x15 := true], HandleMetadata)

  /** parse_action_metadata up to the context update: complete, and signed. */
  function ParseMetadata(bs: seq<byte>, pki: Pki): Option<Metadata> {
    var d :- RunTlv(METADATA_SPEC, bs, {}, NO_METADATA);
    var opType :- d.opType;
    var assetId :- d.assetId;
    var ticker :- d.ticker;
    var network :- d.network;
    var signature :- d.signature;
    if d.structType && d.version && pki(d.hashed, signature) then
      Some(Metadata(opType, assetId, ticker, network, d.builderAddr, d.margin, d.leverage))
    else None
  }

  // ---------------------------------------------------------------- what the signature covers

  /** The raw bytes of every field but the signature, in order. */
  function SignedPart(bs: seq<byte>): seq<byte>
    decreases |bs|
  {
    if bs == [] then [] else
    match ReadField(bs)
    case None => []
    case Some((f, rest)) => (if f.tag == SIGNATURE_TAG then [] else f.raw) + SignedPart(rest)
  }

  lemma FillKeepsHashed(f: Field, d: MetadataDraft)
    requires FillMetadata(f, d).Some?
    ensures FillMetadata(f, d).value.hashed == d.hashed
    ensures FillMetadata(f, d).value.signature ==
            if f.tag in METADATA_SPEC.tags && f.tag == SIGNATURE_TAG then Some(f.value)
            else if f.tag in METADATA_SPEC.tags then d.signature else FillMetadata(f, d).value.signature
  {
    hide GetUint, IsCString;
  }

  lemma {:induction false} RunHashes(bs: seq<byte>, received: set<nat>, d: MetadataDraft)
    requires RunTlv(METADATA_SPEC, bs, received, d).Some?
    ensures var r := RunTlv(METADATA_SPEC, bs, received, d).value;
            r.hashed == d.hashed + SignedPart(bs) &&
            r.signature == (var sigs := Repeated(bs, SIGNATURE_TAG);
                            if sigs == [] then d.signature else Some(sigs[|sigs| - 1]))
    decreases |bs|
  {
    hide FillMetadata, ReadField;
    if bs != [] {
      var (f, rest) := ReadField(bs).value;
      var next := HandleMetadata(f, d).value;
      FillKeepsHashed(f, if f.tag == SIGNATURE_TAG then d else d.(hashed := d.hashed + f.raw));
      RunHashes(rest, received + {f.tag}, next);
    }
  }

  /** Accepted metadata carries a signature that is valid over every other byte of it. */
  lemma AcceptedMetadataIsSigned(bs: seq<byte>, pki: Pki)
    requires ParseMetadata(bs, pki).Some?
    ensures var sigs := Repeated(bs, SIGNATURE_TAG);
            sigs != [] && pki(SignedPart(bs), sigs[|sigs| - 1])
  {
    hide RunTlv, SignedPart, Repeated;
    RunHashes(bs, {}, NO_METADATA);
    assert [] + SignedPart(bs) == SignedPart(bs);
  }

  // ---------------------------------------------------------------- printing

  function BuilderItem(m: Metadata): Option<Item> {
    if m.builderAddr.Some? then Some((0xd3, m.builderAddr.value)) else None
  }

  function MarginItem(m: Metadata): Option<Item> {
    if m.margin.Some? then Some((0xd4, PrintU64(m.margin.value))) else None
  }

  function LeverageItem(m: Metadata): Option<Item> {
    if m.leverage.Some? then Some((0xd5, PrintU32(m.leverage.value))) else None
  }

  function Listed<X>(x: Option<X>): seq<X> {
    if x.Some? then [x.value] else []
  }

  function OptionalItems(m: Metadata): seq<Item> {
    Listed(BuilderItem(m)) + Listed(MarginItem(m)) + Listed(LeverageItem(m))
  }

  function MandatoryItems(m: Metadata): seq<Item> {
    [(0x01, PrintCode(0x2b)), (0x02, PrintCode(1)), (0xd0, PrintCode(OpTypeCode(m.opType))),
     (0xd1, PrintU32(m.assetId)), (0x24, m.ticker), (0xd2, PrintCode(NetworkCode(m.network)))]
  }

  /** The bytes that are signed. */
  function MetadataBytes(m: Metadata): seq<byte> {
    PrintItems(MandatoryItems(m) + OptionalItems(m))
  }

  /** action_metadata.py: ActionMetadata.serialize */
  function PrintMetadata(m: Metadata, signature: seq<byte>): seq<byte>
    requires |signature| < 0x100
  {
    MetadataBytes(m) + PrintField(SIGNATURE_TAG, signature)
  }

  lemma ListedSize(item: Option<Item>, max: nat)
    requires item.Some? ==> item.value.0 < 0x100 && |item.value.1| <= max < 0x80
    ensures |PrintItems(Listed(item))| <= max + 3
  {
    hide PrintField, FlatMap;
    PrintItemsSize(Listed(item), if item.Some? then [0, max + 3] else [0]);
  }

  lemma OptionalItemsSize(m: Metadata)
    ensures |PrintItems(OptionalItems(m))| <= 45
  {
    hide PrintField, FlatMap, Listed, PrintU32, PrintU64;
    ListedSize(BuilderItem(m), 20);
    ListedSize(MarginItem(m), 8);
    ListedSize(LeverageItem(m), 8);
    FlatMapAppend<Item, byte>(PrintItem, Listed(BuilderItem(m)), Listed(MarginItem(m)));
    FlatMapAppend<Item, byte>(PrintItem, Listed(BuilderItem(m)) + Listed(MarginItem(m)), Listed(LeverageItem(m)));
  }

  lemma MandatoryItemsSize(m: Metadata)
    ensures |PrintItems(MandatoryItems(m))| <= 77
  {
    hide PrintField, FlatMap, PrintCode, PrintU32;
    PrintItemsSize(MandatoryItems(m), [0, 4, 8, 12, 20, 72, 77]);
  }

  /** Signed metadata fit one chunked transfer with room to spare. */
  lemma MetadataSize(m: Metadata, signature: seq<byte>)
    requires |signature| <= 72
    ensures 1 <= |PrintMetadata(m, signature)| <= 200
  {
    hide PrintField, FlatMap, MandatoryItems, OptionalItems;
    MandatoryItemsSize(m);
    OptionalItemsSize(m);
    FlatMapAppend<Item, byte>(PrintItem, MandatoryItems(m), OptionalItems(m));
    var sig: Item := (SIGNATURE_TAG, signature);
    PrintItemsSize([sig], [0, 76]);
    PrintFieldNonEmpty(sig);
    assert [sig] == [] + [sig];
    FlatMapSnoc(PrintItem, [], sig);
  }

  /** One printed item, not the signature, leads from one draft to the next. */
  ghost predicate FillsTo(item: Item, d: MetadataDraft, e: MetadataDraft) {
    item.0 != SIGNATURE_TAG && FillMetadata(ItemField(item), d) == Some(e)
  }

  /** A run over printed items hashes their bytes; the rest of the draft is what filling them gives. */
  ghost predicate Fills(items: seq<Item>, outs: seq<MetadataDraft>) {
    |outs| == |items| + 1 && forall i :: 0 <= i < |items| ==> FillsTo(items[i], outs[i], outs[i + 1])
  }

  lemma FillIgnoresHashed(f: Field, d: MetadataDraft, h: seq<byte>)
    ensures FillMetadata(f, d.(hashed := h)) ==
            match FillMetadata(f, d) case None => None case Some(n) => Some(n.(hashed := h))
  {
    hide GetU32, GetU64, GetCode, GetText, GetBuffer, OpTypeOf, NetworkOf;
  }

  lemma {:induction false} RunFills(items: seq<Item>, outs: seq<MetadataDraft>, k: nat, rest: seq<byte>)
    requires k <= |items| && Admissible(METADATA_SPEC, items) && Fills(items, outs)
    ensures RunTlv(METADATA_SPEC, PrintItems(items[k..]) + rest, TagSet(items[..k]),
                   outs[k].(hashed := PrintItems(items[..k])))
            == RunTlv(METADATA_SPEC, rest, TagSet(items), outs[|items|].(hashed := PrintItems(items)))
    decreases |items| - k
  {
    hide FillMetadata, PrintField, RunTlv, Admissible, Admits;
    if k == |items| {
      assert PrintItems(items[k..]) + rest == rest && items[..k] == items;
    } else {
      var item, h := items[k], PrintItems(items[..k]);
      assert items[k..] == [item] + items[k + 1..] && items[..k + 1] == items[..k] + [item];
      FlatMapCons(PrintItem, item, items[k + 1..]);
      FlatMapSnoc(PrintItem, items[..k], item);
      var tail := PrintItems(items[k + 1..]) + rest;
      assert PrintItems(items[k..]) + rest == PrintItem(item) + tail;
      TagSetSnoc(items, k);
      var h2 := PrintItems(items[..k + 1]);
      assert h2 == h + PrintItem(item);
      FillIgnoresHashed(ItemField(item), outs[k], h2);
      FreshTag(items, k);
      RunPrintedField(METADATA_SPEC, item, tail, TagSet(items[..k]), outs[k].(hashed := h), outs[k + 1].(hashed := h2));
      RunFills(items, outs, k + 1, rest);
    }
  }

  lemma FreshTag(items: seq<Item>, k: nat)
    requires k < |items| && Admissible(METADATA_SPEC, items)
    ensures Admits(METADATA_SPEC, TagSet(items[..k]), items[k].0)
  {
  }

  function MandatoryDrafts(m: Metadata): seq<MetadataDraft> {
    var d1 := NO_METADATA.(structType := true);
    var d2 := d1.(version := true);
    var d3 := d2.(opType := Some(m.opType));
    var d4 := d3.(assetId := Some(m.assetId));
    var d5 := d4.(ticker := Some(m.ticker));
    [NO_METADATA, d1, d2, d3, d4, d5, d5.(network := Some(m.network))]
  }

  /** The drafts after each optional field that is there, from d on. */
  function OptionalDrafts(m: Metadata, d: MetadataDraft): seq<MetadataDraft> {
    var d7 := d.(builderAddr := m.builderAddr);
    var d8 := d7.(margin := m.margin);
    var d9 := d8.(leverage := m.leverage);
    (if m.builderAddr.Some? then [d7] else []) + (if m.margin.Some? then [d8] else [])
    + (if m.leverage.Some? then [d9] else [])
  }

  lemma MetadataCodesInvert()
    ensures forall t :: OpTypeOf(OpTypeCode(t)) == Some(t)
    ensures forall n :: NetworkOf(NetworkCode(n)) == Some(n)
  {
  }

  lemma MandatoryFill(m: Metadata)
    ensures Fills(MandatoryItems(m), MandatoryDrafts(m))
  {
    hide PrintField, GetUint, PrintCode, PrintU32, OpTypeOf, OpTypeCode, NetworkOf, NetworkCode;
    GetsInvert();
    MetadataCodesInvert();
  }

  lemma FillsAppend(a: seq<Item>, x: seq<MetadataDraft>, b: seq<Item>, y: seq<MetadataDraft>)
    requires Fills(a, x) && Fills(b, [x[|x| - 1]] + y)
    ensures Fills(a + b, x + y)
  {
    hide FillsTo;
    var items, outs, n := a + b, x + y, |a|;
    forall i | 0 <= i < |items| ensures FillsTo(items[i], outs[i], outs[i + 1]) {
      if i < n {
        assert items[i] == a[i] && outs[i] == x[i] && outs[i + 1] == x[i + 1];
      } else {
        var ys := [x[n]] + y;
        assert items[i] == b[i - n] && outs[i] == ys[i - n] && outs[i + 1] == ys[i - n + 1];
      }
    }
  }

  /** Filling items leads from draft d through outs to draft e. */
  ghost predicate Leads(items: seq<Item>, d: MetadataDraft, outs: seq<MetadataDraft>, e: MetadataDraft) {
    Fills(items, [d] + outs) && ([d] + outs)[|outs|] == e
  }

  lemma LeadsThen(a: seq<Item>, d: MetadataDraft, x: seq<MetadataDraft>, e: MetadataDraft,
                  b: seq<Item>, y: seq<MetadataDraft>, f: MetadataDraft)
    requires Leads(a, d, x, e) && Leads(b, e, y, f)
    ensures Leads(a + b, d, x + y, f)
  {
    hide Fills;
    FillsAppend(a, [d] + x, b, y);
    assert [d] + x + y == [d] + (x + y);
  }

  /** At most one item, from one draft to the next. */
  lemma MaybeLeads(item: Option<Item>, d: MetadataDraft, e: MetadataDraft)
    requires item.None? ==> d == e
    requires item.Some? ==> item.value.0 != SIGNATURE_TAG && FillMetadata(ItemField(item.value), d) == Some(e)
    ensures Leads(Listed(item), d, if item.Some? then [e] else [], e)
  {
    hide FillMetadata;
  }

  lemma BuilderStep(m: Metadata, d: MetadataDraft)
    requires d.builderAddr == None
    ensures var e := d.(builderAddr := m.builderAddr);
            Leads(Listed(BuilderItem(m)), d, if m.builderAddr.Some? then [e] else [], e)
  {
    hide PrintField, Leads, Listed;
    MaybeLeads(BuilderItem(m), d, d.(builderAddr := m.builderAddr));
  }

  lemma MarginStep(m: Metadata, d: MetadataDraft)
    requires d.margin == None
    ensures var e := d.(margin := m.margin);
            Leads(Listed(MarginItem(m)), d, if m.margin.Some? then [e] else [], e)
  {
    hide PrintField, Leads, Listed, GetUint, PrintU64;
    GetsInvert();
    MaybeLeads(MarginItem(m), d, d.(margin := m.margin));
  }

  lemma LeverageStep(m: Metadata, d: MetadataDraft)
    requires d.leverage == None
    ensures var e := d.(leverage := m.leverage);
            Leads(Listed(LeverageItem(m)), d, if m.leverage.Some? then [e] else [], e)
  {
    hide PrintField, Leads, Listed, GetUint, PrintU32;
    GetsInvert();
    MaybeLeads(LeverageItem(m), d, d.(leverage := m.leverage));
  }

  lemma OptionalFill(m: Metadata, d: MetadataDraft)
    requires d.builderAddr == None && d.margin == None && d.leverage == None
    ensures Fills(OptionalItems(m), [d] + OptionalDrafts(m, d))
  {
    hide Fills, Leads, Listed, BuilderItem, MarginItem, LeverageItem;
    var d7 := d.(builderAddr := m.builderAddr);
    var d8 := d7.(margin := m.margin);
    var d9 := d8.(leverage := m.leverage);
    var x := if m.builderAddr.Some? then [d7] else [];
    var y := if m.margin.Some? then [d8] else [];
    var z := if m.leverage.Some? then [d9] else [];
    BuilderStep(m, d);
    MarginStep(m, d7);
    LeverageStep(m, d8);
    LeadsThen(Listed(BuilderItem(m)), d, x, d7, Listed(MarginItem(m)), y, d8);
    LeadsThen(Listed(BuilderItem(m)) + Listed(MarginItem(m)), d, x + y, d8, Listed(LeverageItem(m)), z, d9);
    LeadsFills(OptionalItems(m), d, x + y + z, d9);
  }

  lemma LeadsFills(items: seq<Item>, d: MetadataDraft, outs: seq<MetadataDraft>, e: MetadataDraft)
    requires Leads(items, d, outs, e)
    ensures Fills(items, [d] + outs)
  {
  }

  /** One more field, of a known tag that is not there yet, if there is one at all. */
  lemma AdmissibleThen(items: seq<Item>, item: Option<Item>)
    requires Admissible(METADATA_SPEC, items)
    requires item.Some? ==> item.value.0 in METADATA_SPEC.tags && item.value.0 !in TagSet(items)
    ensures Admissible(METADATA_SPEC, items + Listed(item))
    ensures TagSet(items + Listed(item)) == TagSet(items) + if item.Some? then {item.value.0 as nat} else {}
  {
    hide TagSet;
    var all := items + Listed(item);
    if item.None? {
      assert all == items;
    } else {
      TagSetSnoc(all, |items|);
      assert all[..|items|] == items && all[..|items| + 1] == all;
      TagsAreListed(items);
      forall j | 0 <= j < |all|
        ensures all[j].0 in METADATA_SPEC.tags
                && (METADATA_SPEC.tags[all[j].0] ==> forall i :: 0 <= i < j ==> all[i].0 != all[j].0)
      {
        if j < |items| { assert all[j] == items[j]; }
      }
    }
  }

  lemma TagsAreListed(items: seq<Item>)
    ensures forall i :: 0 <= i < |items| ==> items[i].0 as nat in TagSet(items)
  {
  }

  lemma SixTags(items: seq<Item>)
    requires |items| == 6 && items[0].0 == 0x01 && items[1].0 == 0x02 && items[2].0 == 0xd0 && items[3].0 == 0xd1
             && items[4].0 == 0x24 && items[5].0 == 0xd2
    ensures Admissible(METADATA_SPEC, items)
    ensures TagSet(items) == {0x01, 0x02, 0xd0, 0xd1, 0x24, 0xd2}
  {
    hide HandleMetadata;
    TagsAreListed(items);
    forall t ensures t in TagSet(items) <==> t in {0x01, 0x02, 0xd0, 0xd1, 0x24, 0xd2} {
    }
  }

  lemma MandatoryTags(m: Metadata)
    ensures Admissible(METADATA_SPEC, MandatoryItems(m))
    ensures TagSet(MandatoryItems(m)) == {0x01, 0x02, 0xd0, 0xd1, 0x24, 0xd2}
  {
    hide PrintCode, PrintU32, Admissible, TagSet;
    SixTags(MandatoryItems(m));
  }

  lemma MetadataTags(m: Metadata)
    ensures Admissible(METADATA_SPEC, MandatoryItems(m) + OptionalItems(m))
    ensures Admits(METADATA_SPEC, TagSet(MandatoryItems(m) + OptionalItems(m)), SIGNATURE_TAG)
  {
    hide PrintU32, PrintU64, MandatoryItems, Admissible, TagSet, Listed;
    MandatoryTags(m);
    var a := MandatoryItems(m);
    var b := a + Listed(BuilderItem(m));
    var c := b + Listed(MarginItem(m));
    AdmissibleThen(a, BuilderItem(m));
    AdmissibleThen(b, MarginItem(m));
    AdmissibleThen(c, LeverageItem(m));
    assert a + OptionalItems(m) == c + Listed(LeverageItem(m));
  }

  /** Metadata signed over the client's bytes parses back to itself. */
  lemma MetadataPrintParse(m: Metadata, signature: seq<byte>, pki: Pki)
    requires 70 <= |signature| <= 72 && pki(MetadataBytes(m), signature)
    ensures ParseMetadata(PrintMetadata(m, signature), pki) == Some(m)
  {
    hide PrintField, FillMetadata, MandatoryItems, OptionalItems, RunTlv;
    var items := MandatoryItems(m) + OptionalItems(m);
    var outs := MandatoryDrafts(m) + OptionalDrafts(m, MandatoryDrafts(m)[6]);
    MandatoryFill(m);
    OptionalFill(m, MandatoryDrafts(m)[6]);
    FillsAppend(MandatoryItems(m), MandatoryDrafts(m), OptionalItems(m), OptionalDrafts(m, MandatoryDrafts(m)[6]));
    MetadataTags(m);
    var sig: Item := (SIGNATURE_TAG, signature);
    var last := outs[|items|];
    RunFills(items, outs, 0, PrintItem(sig));
    assert items[0..] == items && TagSet(items[..0]) == {} && outs[0].(hashed := PrintItems(items[..0])) == NO_METADATA;
    LastDraft(m);
    SignatureFills(sig, last.(hashed := PrintItems(items)));
    RunPrintedField(METADATA_SPEC, sig, [], TagSet(items), last.(hashed := PrintItems(items)),
                    last.(hashed := PrintItems(items), signature := Some(signature)));
    assert PrintItem(sig) + [] == PrintItem(sig);
    EmptyRun(TagSet(items) + {SIGNATURE_TAG}, last.(hashed := PrintItems(items), signature := Some(signature)));
  }

  lemma LastDraft(m: Metadata)
    ensures var outs := MandatoryDrafts(m) + OptionalDrafts(m, MandatoryDrafts(m)[6]);
            outs[|outs| - 1] == MetadataDraft([], true, true, Some(m.opType), Some(m.assetId), Some(m.ticker),
                                              Some(m.network), m.builderAddr, m.margin, m.leverage, None)
  {
  }

  lemma SignatureFills(sig: Item, d: MetadataDraft)
    requires sig.0 == SIGNATURE_TAG && 70 <= |sig.1| <= 72
    ensures HandleMetadata(ItemField(sig), d) == Some(d.(signature := Some(sig.1)))
  {
  }

  lemma EmptyRun(received: set<nat>, d: MetadataDraft)
    ensures RunTlv(METADATA_SPEC, [], received, d) == Some(d)
  {
  }
}
