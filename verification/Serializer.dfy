/**
 The canonical serialization of the five actions that are hashed into a connection id, as token
 sequences in the order the C serializers write them, with a decoder that reads them back.
 */
module Serializer {
  import opened Bytes
  import opened MessagePack
  import opened Model

  const MAX_SERIALIZED_ACTION_SIZE := 1024

  function Lit(s: string): Token
    requires |s| < 32
  {
    Str(Ascii(s))
  }

  // ---------------------------------------------------------------- what is written

  function TifText(tif: Tif): Token {
    match tif
    case Alo => Lit("Alo")
    case Ioc => Lit("Ioc")
    case Gtc => Lit("Gtc")
  }

  function TpslText(tpsl: Tpsl): Token {
    match tpsl
    case TakeProfit => Lit("tp")
    case StopLoss => Lit("sl")
  }

  function GroupingText(g: Grouping): Token {
    match g
    case Na => Lit("na")
    case NormalTpsl => Lit("normalTpsl")
    case PositionTpsl => Lit("positionTpsl")
  }

  /** "0x" and the lowercase hex digits of bs. */
  function HexText(bs: seq<byte>): (r: seq<byte>)
    ensures |r| == 2 + 2 * |bs|
  {
    Ascii("0x") + Hex(bs)
  }

  function KindToks(k: OrderKind): seq<Token> {
    match k
    case Limit(tif) =>
      [Lit("limit"), MapHdr(1), Lit("tif"), TifText(tif)]
    case Trigger(isMarket, triggerPx, tpsl) =>
      [Lit("trigger"), MapHdr(3), Lit("isMarket"), Bool(isMarket), Lit("triggerPx"), Str(triggerPx),
       Lit("tpsl"), TpslText(tpsl)]
  }

  function CloidToks(c: Option<Cloid>): seq<Token> {
    if c.None? then [] else [Lit("c"), Str(HexText(c.value))]
  }

  function OrderHead(o: OrderRequest): seq<Token> {
    [MapHdr(if o.cloid.Some? then 7 else 6), Lit("a"), Int(o.asset), Lit("b"), Bool(o.isBuy),
     Lit("p"), Str(o.limitPx), Lit("s"), Str(o.sz), Lit("r"), Bool(o.reduceOnly), Lit("t"), MapHdr(1)]
  }

  function OrderToks(o: OrderRequest): seq<Token> {
    OrderHead(o) + (KindToks(o.kind) + CloidToks(o.cloid))
  }

  function ModifyToks(m: ModifyRequest): seq<Token> {
    [MapHdr(2), Lit("oid"), Int(m.oid), Lit("order")] + OrderToks(m.order)
  }

  function CancelToks(c: CancelRequest): seq<Token> {
    [MapHdr(2), Lit("a"), Int(c.asset), Lit("o"), Int(c.oid)]
  }

  function BuilderToks(b: Option<BuilderInfo>): seq<Token> {
    if b.None? then []
    else [Lit("builder"), MapHdr(2), Lit("b"), Str(HexText(b.value.builder)), Lit("f"), Int(b.value.fee)]
  }

  /** action_serialize refuses the two actions that are hashed as EIP-712 structs of their own. */
  predicate Serializable(b: Body) {
    !b.ApproveBuilderFee? && !b.UserSetAbstraction?
  }

  function BulkHead(fields: u32, kind: string, list: string, count: nat): seq<Token>
    requires |kind| < 32 && |list| < 32 && count < 0x1_0000_0000
  {
    [MapHdr(fields), Lit("type"), Lit(kind), Lit(list), ArrHdr(count)]
  }

  function BodyToks(b: Body): seq<Token>
    requires Serializable(b)
  {
    match b
    case BulkOrder(orders, grouping, builder) =>
      BulkHead(if builder.Some? then 4 else 3, "order", "orders", |orders|)
      + (FlatMap(OrderToks, orders) + ([Lit("grouping"), GroupingText(grouping)] + BuilderToks(builder)))
    case BulkModify(edits) =>
      BulkHead(2, "batchModify", "modifies", |edits|) + FlatMap(ModifyToks, edits)
    case BulkCancel(cancels) =>
      BulkHead(2, "cancel", "cancels", |cancels|) + FlatMap(CancelToks, cancels)
    case UpdateLeverage(asset, isCross, leverage) =>
      [MapHdr(4), Lit("type"), Lit("updateLeverage"), Lit("asset"), Int(asset), Lit("isCross"), Bool(isCross),
       Lit("leverage"), Int(leverage)]
    case UpdateIsolatedMargin(asset, isBuy, ntli) =>
      [MapHdr(4), Lit("type"), Lit("updateIsolatedMargin"), Lit("asset"), Int(asset), Lit("isBuy"), Bool(isBuy),
       Lit("ntli"), Int(ntli)]
  }

  // ---------------------------------------------------------------- every header is honest

  lemma CloidTurns(c: Option<Cloid>)
    ensures Turns(CloidToks(c), |CloidToks(c)|, 0)
  {
    ScalarsTurn(CloidToks(c));
  }

  lemma KindTurns(k: OrderKind)
    ensures Turns(KindToks(k), 2, 0)
  {
    var ts := KindToks(k);
    ScalarsTurn([]);
    RecordTurns(ts[1], ts[2..], [], 0);
    ScalarsTurn(ts[..1]);
    TurnsMore(ts[..1], 1, 0, 1);
    TurnsThen(ts[..1], [ts[1]] + (ts[2..] + []), 2, 1, 0);
    assert ts == ts[..1] + ([ts[1]] + (ts[2..] + []));
  }

  lemma OrderTurns(o: OrderRequest)
    ensures Turns(OrderToks(o), 1, 0)
  {
    hide Ascii, KindToks;
    var h, kind, cloid := OrderHead(o), KindToks(o.kind), CloidToks(o.cloid);
    CloidTurns(o.cloid);
    KindTurns(o.kind);
    TurnsMore(kind, 2, 0, |cloid|);
    TurnsThen(kind, cloid, 2 + |cloid|, |cloid|, 0);
    HeaderTurns(h[12], 2);
    TurnsMore([h[12]], 1, 2, |cloid|);
    TurnsThen([h[12]], kind + cloid, 1 + |cloid|, 2 + |cloid|, 0);
    RecordTurns(h[0], h[1..12], [h[12]] + (kind + cloid), 1 + |cloid|);
    assert OrderToks(o) == [h[0]] + (h[1..12] + ([h[12]] + (kind + cloid)));
  }

  lemma ModifyTurns(m: ModifyRequest)
    ensures Turns(ModifyToks(m), 1, 0)
  {
    hide Ascii, OrderToks;
    var scalars := [Lit("oid"), Int(m.oid), Lit("order")];
    OrderTurns(m.order);
    RecordTurns(MapHdr(2), scalars, OrderToks(m.order), 1);
    assert ModifyToks(m) == [MapHdr(2)] + (scalars + OrderToks(m.order));
  }

  lemma CancelTurns(c: CancelRequest)
    ensures Turns(CancelToks(c), 1, 0)
  {
    var ts := CancelToks(c);
    ScalarsTurn([]);
    RecordTurns(ts[0], ts[1..], [], 0);
    assert ts == [ts[0]] + (ts[1..] + []);
  }

  /** The head of a bulk action, its list, and the pairs that come after the list. */
  lemma BulkTurns(h: seq<Token>, items: seq<Token>, tail: seq<Token>, n: nat)
    requires |h| == 5 && IsScalar(h[1]) && IsScalar(h[2]) && IsScalar(h[3]) && h[4].ArrHdr?
    requires Owed(1, h[0]) == 4 + n
    requires Turns(items, h[4].count, 0) && Turns(tail, n, 0)
    ensures IsDocument(h + (items + tail))
  {
    var k := h[4].count;
    TurnsMore(items, k, 0, n);
    TurnsThen(items, tail, k + n, n, 0);
    HeaderTurns(h[4], k);
    TurnsMore([h[4]], 1, k, n);
    TurnsThen([h[4]], items + tail, 1 + n, k + n, 0);
    var rest := items + tail;
    RecordTurns(h[0], h[1..4], [h[4]] + rest, 1 + n);
    assert h + rest == [h[0]] + (h[1..4] + ([h[4]] + rest));
    TurnsDocument(h + rest);
  }

  lemma BuilderTurns(b: Option<BuilderInfo>)
    ensures Turns(BuilderToks(b), if b.Some? then 2 else 0, 0)
  {
    var ts := BuilderToks(b);
    ScalarsTurn([]);
    if b.Some? {
      RecordTurns(ts[1], ts[2..], [], 0);
      ScalarsTurn(ts[..1]);
      TurnsMore(ts[..1], 1, 0, 1);
      TurnsThen(ts[..1], [ts[1]] + (ts[2..] + []), 2, 1, 0);
      assert ts == ts[..1] + ([ts[1]] + (ts[2..] + []));
    }
  }

  lemma BulkOrderIsDocument(b: Body)
    requires b.BulkOrder?
    ensures IsDocument(BodyToks(b))
  {
    hide Ascii, OrderToks, BuilderToks;
    var n := if b.builder.Some? then 2 else 0;
    var grouping := [Lit("grouping"), GroupingText(b.grouping)];
    forall o: OrderRequest ensures Turns(OrderToks(o), 1, 0) { OrderTurns(o); }
    BuilderTurns(b.builder);
    ScalarsTurn(grouping);
    TurnsMore(grouping, 2, 0, n);
    TurnsThen(grouping, BuilderToks(b.builder), 2 + n, n, 0);
    ListTurns(OrderToks, b.orders);
    BulkTurns(BulkHead(if b.builder.Some? then 4 else 3, "order", "orders", |b.orders|),
              FlatMap(OrderToks, b.orders), grouping + BuilderToks(b.builder), 2 + n);
  }

  /** Whatever the action, the map and array headers written match the values that follow them. */
  lemma BodyIsDocument(b: Body)
    requires Serializable(b)
    ensures IsDocument(BodyToks(b))
  {
    hide Ascii, OrderToks, ModifyToks, CancelToks;
    var ts := BodyToks(b);
    ScalarsTurn([]);
    match b
    case BulkOrder(_, _, _) =>
      BulkOrderIsDocument(b);
    case BulkModify(edits) =>
      forall m: ModifyRequest ensures Turns(ModifyToks(m), 1, 0) { ModifyTurns(m); }
      ListTurns(ModifyToks, edits);
      BulkTurns(BulkHead(2, "batchModify", "modifies", |edits|), FlatMap(ModifyToks, edits), [], 0);
      assert FlatMap(ModifyToks, edits) + [] == FlatMap(ModifyToks, edits);
    case BulkCancel(cancels) =>
      forall c: CancelRequest ensures Turns(CancelToks(c), 1, 0) { CancelTurns(c); }
      ListTurns(CancelToks, cancels);
      BulkTurns(BulkHead(2, "cancel", "cancels", |cancels|), FlatMap(CancelToks, cancels), [], 0);
      assert FlatMap(CancelToks, cancels) + [] == FlatMap(CancelToks, cancels);
    case UpdateLeverage(_, _, _) =>
      FlatRecordIsDocument(ts);
    case UpdateIsolatedMargin(_, _, _) =>
      FlatRecordIsDocument(ts);
  }

  lemma FlatRecordIsDocument(ts: seq<Token>)
    requires |ts| == 9 && ts[0] == MapHdr(4) && forall j :: 1 <= j < 9 ==> IsScalar(ts[j])
    ensures IsDocument(ts)
  {
    ScalarsTurn([]);
    RecordTurns(ts[0], ts[1..], [], 0);
    assert ts == [ts[0]] + (ts[1..] + []);
    TurnsDocument(ts);
  }
}
