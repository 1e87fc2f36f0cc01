/** The bytes of the protocol, written out: what the client sends, what is serialized, and what each code stands for. */
module WireForms {
  import opened Bytes
  import opened Model
  import opened MessagePack
  import opened Serializer
  import opened Decoder
  import opened Eip712
  import opened Tlv
  import opened Parsers
  import opened ActionParser
  import opened MetadataParser

  // ---------------------------------------------------------------- codes

  /** Each code that is read for a choice, and the text that this choice is signed as. */
  lemma OrderCodesMean(n: nat)
    ensures TifOf(n).Some? <==> n <= 2
    ensures n <= 2 ==> TifText(TifOf(n).value) == Lit(if n == 0 then "Alo" else if n == 1 then "Ioc" else "Gtc")
    ensures TifOf(n) == Some(Alo) <==> n == 0
    ensures TifOf(n) == Some(Ioc) <==> n == 1
    ensures TpslOf(n).Some? <==> n <= 1
    ensures n <= 1 ==> TpslText(TpslOf(n).value) == Lit(if n == 0 then "tp" else "sl")
    ensures TpslOf(n) == Some(TakeProfit) <==> n == 0
    ensures GroupingOf(n).Some? <==> n <= 2
    ensures n <= 2 ==> GroupingText(GroupingOf(n).value)
                       == Lit(if n == 0 then "na" else if n == 1 then "normalTpsl" else "positionTpsl")
    ensures OrderTypeOf(n).Some? <==> n <= 1
    ensures OrderTypeOf(n) == Some(LimitType) <==> n == 0
  {
    hide Lit;
  }

  lemma ActionCodesMean(n: nat)
    ensures AbstractionOf(n).Some? <==> n <= 2
    ensures n <= 2 ==> AbstractionText(AbstractionOf(n).value)
                       == Ascii(if n == 0 then "disabled" else if n == 1 then "unifiedAccount" else "portfolioMargin")
    ensures NetworkOf(n).Some? <==> n <= 1
    ensures NetworkOf(n) == Some(Mainnet) <==> n == 0
    ensures n <= 1 ==> ChainText(NetworkOf(n).value) == Ascii(if n == 0 then "Mainnet" else "Testnet")
                       && SourceText(NetworkOf(n).value) == Ascii(if n == 0 then "a" else "b")
  {
    hide Ascii;
  }

  /** The type code of an action is that of the structure it holds. */
  lemma StructureOfCode(bs: seq<byte>, metaAsset: u32, n: nat)
    requires ActionTypeOf(n).Some? && ParseBody(ActionTypeOf(n).value, bs, metaAsset).Some?
    ensures var b := ParseBody(ActionTypeOf(n).value, bs, metaAsset).value;
            && (b.BulkOrder? <==> n == 0) && (b.BulkModify? <==> n == 1) && (b.BulkCancel? <==> n == 2)
            && (b.UpdateLeverage? <==> n == 3) && (b.ApproveBuilderFee? <==> n == 4)
            && (b.UpdateIsolatedMargin? <==> n == 5) && (b.UserSetAbstraction? <==> n == 6)
  {
    hide RunTlv, ParseOrder, ParseBuilder;
  }

  // ---------------------------------------------------------------- one field

  /** A tag, in one byte, or in two if it does not fit seven bits. */
  function TagBytes(tag: byte): seq<byte> {
    if tag < 0x80 then [tag] else [0x81, tag]
  }

  function LengthBytes(n: nat): seq<byte>
    requires n < 0x1_0000
  {
    if n < 0x80 then [n] else if n < 0x100 then [0x81, n] else [0x82, n / 0x100, n % 0x100]
  }

  function FieldBytes(tag: byte, value: seq<byte>): seq<byte>
    requires |value| < 0x1_0000
  {
    TagBytes(tag) + LengthBytes(|value|) + value
  }

  lemma SmallBE(n: nat)
    ensures n < 0x100 ==> BE(n, 1) == [n]
    ensures n < 0x1_0000 ==> BE(n, 2) == [n / 0x100, n % 0x100]
  {
    hide BE;
    if n < 0x1_0000 {
      BEStep(n, 1);
      OneByteBE(n / 0x100);
    }
    if n < 0x100 {
      OneByteBE(n);
    }
  }

  lemma DerWrittenOut(n: nat)
    requires n < 0x1_0000
    ensures DerEncode(n) == LengthBytes(n)
  {
    SmallBE(n);
    Pow256Values();
    MinLenIsShortest(n, 1);
    MinLenIsShortest(n, 2);
    hide BE, MinLen;
    if 0x80 <= n < 0x100 {
      assert MinLen(n) == 1;
    } else if n >= 0x100 {
      assert MinLen(n) == 2;
    }
  }

  /** What the client prints for a field, for every tag and length that occurs. */
  lemma FieldWrittenOut(tag: byte, value: seq<byte>)
    requires |value| < 0x1_0000
    ensures PrintField(tag, value) == FieldBytes(tag, value)
  {
    hide DerEncode;
    DerWrittenOut(tag);
    DerWrittenOut(|value|);
  }

  lemma CodeWrittenOut(c: byte)
    ensures PrintCode(c) == [c]
  {
    SmallBE(c);
    Pow256Values();
    MinLenIsShortest(c, 1);
  }

  ghost predicate Written(items: seq<Item>, bytes: seq<seq<byte>>) {
    |items| == |bytes| && forall i :: 0 <= i < |items| ==>
      items[i].0 < 0x100 && |items[i].1| < 0x1_0000 && bytes[i] == FieldBytes(items[i].0, items[i].1)
  }

  lemma WrittenItems(items: seq<Item>, bytes: seq<seq<byte>>)
    requires Written(items, bytes)
    ensures PrintItems(items) == Join(bytes)
  {
    hide PrintField, FieldBytes;
    forall i | 0 <= i < |items| ensures PrintItem(items[i]) == bytes[i] {
      FieldWrittenOut(items[i].0, items[i].1);
    }
    FlatMapIsJoin(PrintItem, items, bytes);
  }

  // ---------------------------------------------------------------- what the client sends

  /** The fields of a limit or trigger kind. */
  function KindSent(k: OrderKind): seq<seq<byte>> {
    match k
    case Limit(tif) => [FieldBytes(0xe6, [match tif case Alo => 0 case Ioc => 1 case Gtc => 2])]
    case Trigger(market, px, tpsl) =>
      [FieldBytes(0xe7, [if market then 1 else 0]), FieldBytes(0xe8, px),
       FieldBytes(0xe9, [if tpsl == TakeProfit then 0 else 1])]
  }

  lemma KindWrittenOut(k: OrderKind)
    ensures PrintKind(k) == Join(KindSent(k))
  {
    hide PrintItems, PrintCode, FieldBytes;
    CodesWrittenOut();
    WrittenItems(KindItems(k), KindSent(k));
  }

  lemma CodesWrittenOut()
    ensures forall c: byte :: PrintCode(c) == [c]
  {
    forall c: byte ensures PrintCode(c) == [c] {
      CodeWrittenOut(c);
    }
  }

  /** The fields of an order. */
  function OrderSent(o: OrderRequest): seq<seq<byte>> {
    [FieldBytes(0xe0, [if o.kind.Limit? then 0 else 1]), FieldBytes(0xd1, PrintU32(o.asset)),
     FieldBytes(0xe2, [if o.isBuy then 1 else 0]), FieldBytes(0xe3, o.limitPx), FieldBytes(0xe4, o.sz),
     FieldBytes(0xe5, [if o.reduceOnly then 1 else 0]), FieldBytes(0xd7, PrintKind(o.kind))]
    + if o.cloid.Some? then [FieldBytes(0xee, o.cloid.value)] else []
  }

  /** An order as the client sends it: its type first, then its fields, the kind, and the client id if there is one. */
  lemma OrderWrittenOut(o: OrderRequest)
    ensures PrintOrder(o) == Join(OrderSent(o))
  {
    hide PrintItems, PrintCode, PrintKind, PrintU32, FieldBytes;
    CodesWrittenOut();
    WrittenItems(OrderItems(o), OrderSent(o));
  }

  /** Numbers are sent in their shortest form. */
  lemma NumbersWrittenOut()
    ensures forall n: u32 :: PrintU32(n) == MinBE(n)
    ensures forall n: u64 :: PrintU64(n) == MinBE(n)
  {
    hide MinBE;
  }

  lemma RequestsWrittenOut(m: ModifyRequest, c: CancelRequest, b: BuilderInfo)
    ensures PrintModify(m) == Join([FieldBytes(0xdd, PrintOrder(m.order)), FieldBytes(0xdc, PrintU64(m.oid))])
    ensures PrintCancel(c) == Join([FieldBytes(0xd1, PrintU32(c.asset)), FieldBytes(0xdc, PrintU64(c.oid))])
    ensures PrintBuilder(b) == Join([FieldBytes(0xd3, b.builder), FieldBytes(0xec, PrintU64(b.fee))])
  {
    hide PrintItems, PrintOrder, PrintU32, PrintU64, FieldBytes;
    WrittenItems(ModifyItems(m), [FieldBytes(0xdd, PrintOrder(m.order)), FieldBytes(0xdc, PrintU64(m.oid))]);
    WrittenItems(CancelItems(c), [FieldBytes(0xd1, PrintU32(c.asset)), FieldBytes(0xdc, PrintU64(c.oid))]);
    WrittenItems(BuilderItems(b), [FieldBytes(0xd3, b.builder), FieldBytes(0xec, PrintU64(b.fee))]);
  }

  /** The requests of a bulk action, one field each, in their order. */
  function ListBytes<X(!new)>(tag: byte, bytesOf: X -> seq<byte>, xs: seq<X>): (r: seq<seq<byte>>)
    requires forall x :: |bytesOf(x)| < 0x1_0000
    ensures |r| == |xs| && forall i :: 0 <= i < |xs| ==> r[i] == FieldBytes(tag, bytesOf(xs[i]))
  {
    seq(|xs|, i requires 0 <= i < |xs| => FieldBytes(tag, bytesOf(xs[i])))
  }

  /** The fields of a bulk order. */
  function BulkOrderSent(b: Body): seq<seq<byte>>
    requires b.BulkOrder?
  {
    ListBytes(0xdd, PrintOrder, b.orders)
    + ([FieldBytes(0xea, [match b.grouping case Na => 0 case NormalTpsl => 1 case PositionTpsl => 2])]
       + if b.builder.Some? then [FieldBytes(0xeb, PrintBuilder(b.builder.value))] else [])
  }

  lemma BulkOrderWrittenOut(b: Body)
    requires b.BulkOrder?
    ensures PrintBody(b) == Join(BulkOrderSent(b))
  {
    hide PrintItems, PrintCode, PrintOrder, PrintBuilder, FieldBytes;
    CodesWrittenOut();
    WrittenItems(BodyItems(b), BulkOrderSent(b));
  }

  lemma BulkEditsWrittenOut(b: Body)
    ensures b.BulkModify? ==> PrintBody(b) == Join(ListBytes(0xd8, PrintModify, b.edits))
    ensures b.BulkCancel? ==> PrintBody(b) == Join(ListBytes(0xd9, PrintCancel, b.cancels))
  {
    hide PrintItems, PrintModify, PrintCancel, FieldBytes;
    if b.BulkModify? {
      WrittenItems(BodyItems(b), ListBytes(0xd8, PrintModify, b.edits));
    } else if b.BulkCancel? {
      WrittenItems(BodyItems(b), ListBytes(0xd9, PrintCancel, b.cancels));
    }
  }

  /** The fields of the actions that are no lists. */
  function RecordSent(b: Body): seq<seq<byte>> {
    match b
    case UpdateLeverage(asset, cross, leverage) =>
      [FieldBytes(0xd1, PrintU32(asset)), FieldBytes(0xde, [if cross then 1 else 0]),
       FieldBytes(0xed, PrintU32(leverage))]
    case ApproveBuilderFee(chainId, rate, builder) =>
      [FieldBytes(0x23, PrintU64(chainId)), FieldBytes(0xb0, rate), FieldBytes(0xd3, builder)]
    case UpdateIsolatedMargin(asset, isBuy, ntli) =>
      [FieldBytes(0xd1, PrintU32(asset)), FieldBytes(0xe2, [if isBuy then 1 else 0]),
       FieldBytes(0xd6, BE(if ntli < 0 then 0x1_0000_0000_0000_0000 + ntli as int else ntli as int, 8))]
    case UserSetAbstraction(chainId, abstraction) =>
      [FieldBytes(0x23, PrintU64(chainId)),
       FieldBytes(0xdf, [match abstraction case Disabled => 0 case UnifiedAccount => 1 case PortfolioMargin => 2])]
    case _ => []
  }

  lemma RecordWrittenOut(b: Body)
    requires b.UpdateLeverage? || b.ApproveBuilderFee? || b.UpdateIsolatedMargin? || b.UserSetAbstraction?
    ensures PrintBody(b) == Join(RecordSent(b))
  {
    hide PrintItems, PrintCode, PrintU32, PrintU64, BE, FieldBytes;
    CodesWrittenOut();
    WrittenItems(BodyItems(b), RecordSent(b));
  }

  /** The fields of an action. */
  function ActionSent(a: Action): seq<seq<byte>> {
    [FieldBytes(0x01, [0x2c]), FieldBytes(0x02, [1]),
     FieldBytes(0xd0, [match a.body
                       case BulkOrder(_, _, _) => 0 case BulkModify(_) => 1 case BulkCancel(_) => 2
                       case UpdateLeverage(_, _, _) => 3 case ApproveBuilderFee(_, _, _) => 4
                       case UpdateIsolatedMargin(_, _, _) => 5 case UserSetAbstraction(_, _) => 6]),
     FieldBytes(0xda, PrintU64(a.nonce)), FieldBytes(0xdb, PrintBody(a.body))]
  }

  /** An action as the client sends it: the structure type, the version, the type code, the nonce and the structure. */
  lemma ActionWrittenOut(a: Action)
    ensures PrintAction(a) == Join(ActionSent(a))
  {
    hide PrintItems, PrintCode, PrintU64, PrintBody, FieldBytes;
    CodesWrittenOut();
    WrittenItems(ActionItems(a), ActionSent(a));
  }

  /** The fields of metadata, without the signature. */
  function MetadataSent(m: Metadata): seq<seq<byte>> {
    [FieldBytes(0x01, [0x2b]), FieldBytes(0x02, [1]),
     FieldBytes(0xd0, [match m.opType
                       case OpOrder => 0 case OpModify => 1 case OpCancel => 2 case OpClose => 4
                       case OpUpdateMargin => 5 case OpCancelSl => 6 case OpCancelTp => 7 case OpCancelTpSl => 8]),
     FieldBytes(0xd1, PrintU32(m.assetId)), FieldBytes(0x24, m.ticker),
     FieldBytes(0xd2, [if m.network == Mainnet then 0 else 1])]
    + ((if m.builderAddr.Some? then [FieldBytes(0xd3, m.builderAddr.value)] else [])
       + (if m.margin.Some? then [FieldBytes(0xd4, PrintU64(m.margin.value))] else [])
       + (if m.leverage.Some? then [FieldBytes(0xd5, PrintU32(m.leverage.value))] else []))
  }

  /** The signed part of metadata as the client sends it. */
  lemma MetadataWrittenOut(m: Metadata)
    ensures MetadataBytes(m) == Join(MetadataSent(m))
  {
    hide PrintItems, PrintCode, PrintU32, PrintU64, FieldBytes;
    CodesWrittenOut();
    WrittenItems(MandatoryItems(m) + OptionalItems(m), MetadataSent(m));
  }

  // ---------------------------------------------------------------- what is serialized

  /** A string of fewer than 32 bytes. */
  function ShortBytes(s: seq<byte>): seq<byte>
    requires |s| < 32
  {
    [0xa0 + |s|] + s
  }

  function KeyBytes(s: string): seq<byte>
    requires |s| < 32
  {
    ShortBytes(Ascii(s))
  }

  function BoolBytes(b: bool): seq<byte> { [if b then 0xc3 else 0xc2] }

  /** The hex text of 16 or 20 bytes, which takes a length byte of its own. */
  function HexBytes(bs: seq<byte>): seq<byte>
    requires |bs| == 16 || |bs| == 20
  {
    [0xd9, 2 + 2 * |bs|] + (Ascii("0x") + Hex(bs))
  }

  /** The bytes of a limit or trigger kind, key by key. */
  function KindSigned(k: OrderKind): seq<seq<byte>> {
    match k
    case Limit(tif) =>
      [KeyBytes("limit"), [0x81], KeyBytes("tif"), KeyBytes(match tif case Alo => "Alo" case Ioc => "Ioc" case Gtc => "Gtc")]
    case Trigger(market, px, tpsl) =>
      [KeyBytes("trigger"), [0x83], KeyBytes("isMarket"), BoolBytes(market), KeyBytes("triggerPx"), ShortBytes(px),
       KeyBytes("tpsl"), KeyBytes(if tpsl == TakeProfit then "tp" else "sl")]
  }

  function OrderHeadSigned(o: OrderRequest): seq<seq<byte>> {
    [[if o.cloid.Some? then 0x87 else 0x86], KeyBytes("a"), EncInt(o.asset), KeyBytes("b"), BoolBytes(o.isBuy),
     KeyBytes("p"), ShortBytes(o.limitPx), KeyBytes("s"), ShortBytes(o.sz), KeyBytes("r"), BoolBytes(o.reduceOnly),
     KeyBytes("t"), [0x81]]
  }

  function CloidSigned(c: Option<Cloid>): seq<seq<byte>> {
    if c.Some? then [KeyBytes("c"), HexBytes(c.value)] else []
  }

  /** The bytes of an order: keys and values in this order, and the client id last. */
  function OrderSigned(o: OrderRequest): seq<seq<byte>> {
    OrderHeadSigned(o) + (KindSigned(o.kind) + CloidSigned(o.cloid))
  }

  /** The tokens of the serialized actions, each as its bytes. */
  lemma TokensBytes()
    ensures forall n: Word {:trigger EncToken(Int(n))} :: EncToken(Int(n)) == EncInt(n)
    ensures forall b {:trigger EncToken(Bool(b))} :: EncToken(Bool(b)) == BoolBytes(b)
    ensures forall s: Text {:trigger EncToken(Str(s))} | |s| < 32 :: EncToken(Str(s)) == ShortBytes(s)
    ensures forall n: u32 {:trigger EncToken(MapHdr(n))} | n < 16 :: EncToken(MapHdr(n)) == [0x80 + n]
    ensures forall n: u32 {:trigger EncToken(ArrHdr(n))} | n < 16 :: EncToken(ArrHdr(n)) == [0x90 + n]
  {
    hide EncInt;
  }

  lemma HexToken(bs: seq<byte>)
    requires |bs| == 16 || |bs| == 20
    ensures EncToken(Str(HexText(bs))) == HexBytes(bs)
  {
    hide Hex, Ascii;
  }

  /** ts is encoded as parts, one each. */
  ghost predicate Encodes(ts: seq<Token>, parts: seq<seq<byte>>) {
    |ts| == |parts| && forall i :: 0 <= i < |ts| ==> EncToken(ts[i]) == parts[i]
  }

  lemma EncodesJoin(ts: seq<Token>, parts: seq<seq<byte>>)
    requires Encodes(ts, parts)
    ensures Enc(ts) == Join(parts)
  {
    hide EncToken;
    FlatMapIsJoin(EncToken, ts, parts);
  }

  lemma EncodesAppend(a: seq<Token>, x: seq<seq<byte>>, b: seq<Token>, y: seq<seq<byte>>)
    requires Encodes(a, x) && Encodes(b, y)
    ensures Encodes(a + b, x + y)
  {
    hide EncToken;
  }

  lemma HeadEncodes(o: OrderRequest)
    ensures Encodes(OrderHead(o), OrderHeadSigned(o))
  {
    hide EncToken, EncInt, Ascii, BoolBytes, ShortBytes;
    TokensBytes();
  }

  lemma KindEncodes(k: OrderKind)
    ensures Encodes(KindToks(k), KindSigned(k))
  {
    hide EncToken, Ascii, BoolBytes, ShortBytes;
    TokensBytes();
  }

  lemma CloidEncodes(c: Option<Cloid>)
    ensures Encodes(CloidToks(c), CloidSigned(c))
  {
    hide EncToken, Ascii, ShortBytes, HexBytes, HexText;
    TokensBytes();
    if c.Some? { HexToken(c.value); }
  }

  lemma OrderEncodes(o: OrderRequest)
    ensures Encodes(OrderToks(o), OrderSigned(o))
  {
    hide Encodes, OrderHead, OrderHeadSigned, KindToks, KindSigned, CloidToks, CloidSigned;
    HeadEncodes(o);
    KindEncodes(o.kind);
    CloidEncodes(o.cloid);
    EncodesAppend(KindToks(o.kind), KindSigned(o.kind), CloidToks(o.cloid), CloidSigned(o.cloid));
    EncodesAppend(OrderHead(o), OrderHeadSigned(o), KindToks(o.kind) + CloidToks(o.cloid),
                  KindSigned(o.kind) + CloidSigned(o.cloid));
  }

  function ModifySigned(m: ModifyRequest): seq<seq<byte>> {
    [[0x82], KeyBytes("oid"), EncInt(m.oid), KeyBytes("order")] + OrderSigned(m.order)
  }

  lemma ModifyEncodes(m: ModifyRequest)
    ensures Encodes(ModifyToks(m), ModifySigned(m))
  {
    hide EncToken, EncInt, Ascii, ShortBytes, OrderToks, OrderSigned;
    TokensBytes();
    OrderEncodes(m.order);
    EncodesAppend([MapHdr(2), Lit("oid"), Int(m.oid), Lit("order")], [[0x82], KeyBytes("oid"), EncInt(m.oid), KeyBytes("order")],
                  OrderToks(m.order), OrderSigned(m.order));
  }

  function CancelSigned(c: CancelRequest): seq<seq<byte>> {
    [[0x82], KeyBytes("a"), EncInt(c.asset), KeyBytes("o"), EncInt(c.oid)]
  }

  lemma CancelEncodes(c: CancelRequest)
    ensures Encodes(CancelToks(c), CancelSigned(c))
  {
    hide EncToken, EncInt, Ascii, ShortBytes;
    TokensBytes();
  }

  lemma {:induction false} ListEncodes<X>(toks: X -> seq<Token>, signed: X -> seq<seq<byte>>, xs: seq<X>)
    requires forall i :: 0 <= i < |xs| ==> Encodes(toks(xs[i]), signed(xs[i]))
    ensures Encodes(FlatMap(toks, xs), FlatMap(signed, xs))
  {
    hide Encodes;
    if xs == [] {
      NothingEncodes();
    } else {
      var n := |xs| - 1;
      ListEncodes(toks, signed, xs[..n]);
      EncodesAppend(FlatMap(toks, xs[..n]), FlatMap(signed, xs[..n]), toks(xs[n]), signed(xs[n]));
    }
  }

  lemma NothingEncodes()
    ensures Encodes([], [])
  {
  }

  function HeadSigned(fields: nat, kind: string, list: string, count: nat): seq<seq<byte>>
    requires fields < 16 && |kind| < 32 && |list| < 32 && count < 16
  {
    [[0x80 + fields], KeyBytes("type"), KeyBytes(kind), KeyBytes(list), [0x90 + count]]
  }

  function BuilderSigned(b: Option<BuilderInfo>): seq<seq<byte>> {
    if b.None? then []
    else [KeyBytes("builder"), [0x82], KeyBytes("b"), HexBytes(b.value.builder), KeyBytes("f"), EncInt(b.value.fee)]
  }

  function GroupingSigned(g: Grouping): seq<seq<byte>> {
    [KeyBytes("grouping"), KeyBytes(match g case Na => "na" case NormalTpsl => "normalTpsl" case PositionTpsl => "positionTpsl")]
  }

  /** The bytes of an action that is hashed into a connection id, part by part. */
  function BodySigned(b: Body): seq<seq<byte>>
    requires Serializable(b)
  {
    match b
    case BulkOrder(orders, grouping, builder) =>
      HeadSigned(if builder.Some? then 4 else 3, "order", "orders", |orders|)
      + (FlatMap(OrderSigned, orders) + (GroupingSigned(grouping) + BuilderSigned(builder)))
    case BulkModify(edits) => HeadSigned(2, "batchModify", "modifies", |edits|) + FlatMap(ModifySigned, edits)
    case BulkCancel(cancels) => HeadSigned(2, "cancel", "cancels", |cancels|) + FlatMap(CancelSigned, cancels)
    case UpdateLeverage(asset, isCross, leverage) =>
      [[0x84], KeyBytes("type"), KeyBytes("updateLeverage"), KeyBytes("asset"), EncInt(asset), KeyBytes("isCross"),
       BoolBytes(isCross), KeyBytes("leverage"), EncInt(leverage)]
    case UpdateIsolatedMargin(asset, isBuy, ntli) =>
      [[0x84], KeyBytes("type"), KeyBytes("updateIsolatedMargin"), KeyBytes("asset"), EncInt(asset), KeyBytes("isBuy"),
       BoolBytes(isBuy), KeyBytes("ntli"), EncInt(ntli)]
  }

  lemma HeadOfListEncodes(fields: nat, kind: string, list: string, count: nat)
    requires fields < 16 && |kind| < 32 && |list| < 32 && count < 16
    ensures Encodes(BulkHead(fields, kind, list, count), HeadSigned(fields, kind, list, count))
  {
    hide EncToken, Ascii, ShortBytes;
    TokensBytes();
  }

  lemma BuilderEncodes(b: Option<BuilderInfo>)
    ensures Encodes(BuilderToks(b), BuilderSigned(b))
  {
    hide EncToken, EncInt, Ascii, ShortBytes, HexBytes, HexText;
    TokensBytes();
    if b.Some? { HexToken(b.value.builder); }
  }

  lemma GroupingEncodes(g: Grouping)
    ensures Encodes([Lit("grouping"), GroupingText(g)], GroupingSigned(g))
  {
    hide EncToken, Ascii, ShortBytes;
    TokensBytes();
  }

  lemma BulkOrderEncodes(b: Body)
    requires b.BulkOrder?
    ensures Encodes(BodyToks(b), BodySigned(b))
  {
    hide Encodes, HeadSigned, BulkHead, FlatMap, GroupingSigned, GroupingText, BuilderSigned, BuilderToks, Lit;
    forall i | 0 <= i < |b.orders| ensures Encodes(OrderToks(b.orders[i]), OrderSigned(b.orders[i])) {
      OrderEncodes(b.orders[i]);
    }
    ListEncodes(OrderToks, OrderSigned, b.orders);
    HeadOfListEncodes(if b.builder.Some? then 4 else 3, "order", "orders", |b.orders|);
    GroupingEncodes(b.grouping);
    BuilderEncodes(b.builder);
    var g := [Lit("grouping"), GroupingText(b.grouping)];
    EncodesAppend(g, GroupingSigned(b.grouping), BuilderToks(b.builder), BuilderSigned(b.builder));
    EncodesAppend(FlatMap(OrderToks, b.orders), FlatMap(OrderSigned, b.orders), g + BuilderToks(b.builder),
                  GroupingSigned(b.grouping) + BuilderSigned(b.builder));
    EncodesAppend(BulkHead(if b.builder.Some? then 4 else 3, "order", "orders", |b.orders|),
                  HeadSigned(if b.builder.Some? then 4 else 3, "order", "orders", |b.orders|),
                  FlatMap(OrderToks, b.orders) + (g + BuilderToks(b.builder)),
                  FlatMap(OrderSigned, b.orders) + (GroupingSigned(b.grouping) + BuilderSigned(b.builder)));
  }

  lemma EditsEncode(b: Body)
    requires b.BulkModify? || b.BulkCancel?
    ensures Encodes(BodyToks(b), BodySigned(b))
  {
    hide Encodes, HeadSigned, BulkHead, FlatMap, ModifyToks, ModifySigned, CancelToks, CancelSigned;
    if b.BulkModify? {
      forall i | 0 <= i < |b.edits| ensures Encodes(ModifyToks(b.edits[i]), ModifySigned(b.edits[i])) {
        ModifyEncodes(b.edits[i]);
      }
      ListEncodes(ModifyToks, ModifySigned, b.edits);
      HeadOfListEncodes(2, "batchModify", "modifies", |b.edits|);
      EncodesAppend(BulkHead(2, "batchModify", "modifies", |b.edits|), HeadSigned(2, "batchModify", "modifies", |b.edits|),
                    FlatMap(ModifyToks, b.edits), FlatMap(ModifySigned, b.edits));
    } else {
      forall i | 0 <= i < |b.cancels| ensures Encodes(CancelToks(b.cancels[i]), CancelSigned(b.cancels[i])) {
        CancelEncodes(b.cancels[i]);
      }
      ListEncodes(CancelToks, CancelSigned, b.cancels);
      HeadOfListEncodes(2, "cancel", "cancels", |b.cancels|);
      EncodesAppend(BulkHead(2, "cancel", "cancels", |b.cancels|), HeadSigned(2, "cancel", "cancels", |b.cancels|),
                    FlatMap(CancelToks, b.cancels), FlatMap(CancelSigned, b.cancels));
    }
  }

  lemma RecordEncodes(b: Body)
    requires b.UpdateLeverage? || b.UpdateIsolatedMargin?
    ensures Encodes(BodyToks(b), BodySigned(b))
  {
    hide EncToken, EncInt, Ascii, ShortBytes, BoolBytes;
    TokensBytes();
  }

  /** The bytes of every action that is hashed into a connection id. */
  lemma BodySignedAs(b: Body)
    requires Serializable(b)
    ensures BodyBytes(b) == Join(BodySigned(b))
  {
    hide Encodes, BodyToks, BodySigned, Enc;
    if b.BulkOrder? {
      BulkOrderEncodes(b);
    } else if b.BulkModify? || b.BulkCancel? {
      EditsEncode(b);
    } else {
      RecordEncodes(b);
    }
    EncodesJoin(BodyToks(b), BodySigned(b));
  }

  /** One number of each size and sign: the markers of the int format family, most significant byte first. */
  lemma NumbersSigned()
    ensures EncInt(5) == [5] && EncInt(200) == [0xcc, 200] && EncInt(0x1234) == [0xcd, 0x12, 0x34]
    ensures EncInt(-1) == [0xff] && EncInt(-100) == [0xd0, 0x9c] && EncInt(-1000) == [0xd1, 0xfc, 0x18]
    ensures EncInt(0x1_0000) == [0xce] + BE(0x1_0000, 4) && EncInt(-0x1_0000) == [0xd2] + BE(0xffff_0000, 4)
    ensures EncInt(0x1_0000_0000) == [0xcf] + BE(0x1_0000_0000, 8)
    ensures EncInt(-0x1_0000_0000) == [0xd3] + BE(0xffff_ffff_0000_0000, 8)
  {
    hide BE;
    SmallBE(0x1234);
    SmallBE(0xfc18);
  }
}
