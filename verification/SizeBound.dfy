/** How many bytes each request and each action can take in the serialization buffer. */
module SizeBound {
  import opened Bytes
  import opened MessagePack
  import opened Model
  import opened Serializer
  import opened Decoder

  const ORDER_MAX := 162
  const MODIFY_MAX := 182
  const CANCEL_MAX := 19

  lemma TokenSizes()
    ensures forall b :: |EncToken(Bool(b))| == 1
    ensures forall n :: |EncToken(Int(n))| <= 9
    ensures forall n :: IsU32(n) ==> |EncToken(Int(n))| <= 5
    ensures forall s :: |s| < 32 ==> |EncToken(Str(s))| == 1 + |s|
    ensures forall s :: |s| < 256 ==> |EncToken(Str(s))| <= 2 + |s|
    ensures forall n :: n < 16 ==> |EncToken(MapHdr(n))| == 1 && |EncToken(ArrHdr(n))| == 1
  {
  }

  lemma KindSize(k: OrderKind)
    ensures |Enc(KindToks(k))| <= 59
  {
    hide EncToken, Ascii;
    TokenSizes();
    FlatMapBound(EncToken, KindToks(k),
                 if k.Limit? then [0, 6, 7, 11, 15] else [0, 8, 9, 18, 19, 29, 51, 56, 59]);
  }

  lemma OrderSize(o: OrderRequest)
    ensures |Enc(OrderToks(o))| <= ORDER_MAX
  {
    hide EncToken, Ascii, KindToks;
    TokenSizes();
    KindSize(o.kind);
    FlatMapBound(EncToken, OrderHead(o), [0, 1, 3, 8, 10, 11, 13, 35, 37, 59, 61, 62, 64, 65]);
    FlatMapBound(EncToken, CloidToks(o.cloid), if o.cloid.Some? then [0, 2, 38] else [0]);
    FlatMapAppend(EncToken, KindToks(o.kind), CloidToks(o.cloid));
    FlatMapAppend(EncToken, OrderHead(o), KindToks(o.kind) + CloidToks(o.cloid));
  }

  lemma ModifySize(m: ModifyRequest)
    ensures |Enc(ModifyToks(m))| <= MODIFY_MAX
  {
    hide EncToken, Ascii, OrderToks;
    TokenSizes();
    OrderSize(m.order);
    var head := [MapHdr(2), Lit("oid"), Int(m.oid), Lit("order")];
    FlatMapBound(EncToken, head, [0, 1, 5, 14, 20]);
    FlatMapAppend(EncToken, head, OrderToks(m.order));
  }

  lemma CancelSize(c: CancelRequest)
    ensures |Enc(CancelToks(c))| <= CANCEL_MAX
  {
    hide EncToken, Ascii;
    TokenSizes();
    FlatMapBound(EncToken, CancelToks(c), [0, 1, 3, 8, 10, 19]);
  }

  lemma {:induction false} ListSize<X>(emit: X -> seq<Token>, xs: seq<X>, max: nat)
    requires forall i :: 0 <= i < |xs| ==> |Enc(emit(xs[i]))| <= max
    ensures |Enc(FlatMap(emit, xs))| <= |xs| * max
  {
    hide EncToken, FlatMap;
    if xs == [] {
      assert Enc(FlatMap(emit, xs)) == [] by { NoBytes(emit); }
    } else {
      var init, last := xs[..|xs| - 1], xs[|xs| - 1];
      ListSize(emit, init, max);
      ListSizeStep(emit, init, last);
      assert xs == init + [last];
      assert |xs| * max == |init| * max + max;
    }
  }

  lemma NoBytes<X>(emit: X -> seq<Token>)
    ensures Enc(FlatMap(emit, [])) == []
  {
  }

  lemma ListSizeStep<X>(emit: X -> seq<Token>, xs: seq<X>, x: X)
    ensures |Enc(FlatMap(emit, xs + [x]))| == |Enc(FlatMap(emit, xs))| + |Enc(emit(x))|
  {
    hide EncToken, FlatMap;
    FlatMapSnoc(emit, xs, x);
    FlatMapAppend(EncToken, FlatMap(emit, xs), emit(x));
  }

  lemma BuilderSize(b: Option<BuilderInfo>)
    ensures |Enc(BuilderToks(b))| <= 66
  {
    hide EncToken, Ascii;
    TokenSizes();
    FlatMapBound(EncToken, BuilderToks(b), if b.Some? then [0, 8, 9, 11, 55, 57, 66] else [0]);
  }

  lemma BulkHeadSize(fields: u32, kind: string, list: string, count: nat)
    requires |kind| + |list| <= 25 && count <= BULK_MAX_SIZE && fields < 16
    ensures |Enc(BulkHead(fields, kind, list, count))| <= 9 + |kind| + |list|
  {
    hide EncToken, Ascii;
    TokenSizes();
    var k, l := |kind|, |list|;
    FlatMapBound(EncToken, BulkHead(fields, kind, list, count), [0, 1, 6, 7 + k, 8 + k + l, 9 + k + l]);
  }

  lemma BulkOrderSize(b: Body)
    requires b.BulkOrder?
    ensures |Enc(BodyToks(b))| <= 918
  {
    hide EncToken, Ascii, OrderToks, BuilderToks, BulkHead;
    TokenSizes();
    var fields := if b.builder.Some? then 4 else 3;
    var head := BulkHead(fields, "order", "orders", |b.orders|);
    var list, grouping := FlatMap(OrderToks, b.orders), [Lit("grouping"), GroupingText(b.grouping)];
    BulkHeadSize(fields, "order", "orders", |b.orders|);
    forall i | 0 <= i < |b.orders| ensures |Enc(OrderToks(b.orders[i]))| <= ORDER_MAX { OrderSize(b.orders[i]); }
    ListSize(OrderToks, b.orders, ORDER_MAX);
    FlatMapBound(EncToken, grouping, [0, 9, 22]);
    BuilderSize(b.builder);
    FlatMapAppend(EncToken, grouping, BuilderToks(b.builder));
    FlatMapAppend(EncToken, list, grouping + BuilderToks(b.builder));
    FlatMapAppend(EncToken, head, list + (grouping + BuilderToks(b.builder)));
  }

  lemma BulkModifySize(b: Body)
    requires b.BulkModify?
    ensures |Enc(BodyToks(b))| <= 938
  {
    hide EncToken, Ascii, ModifyToks, BulkHead;
    BulkHeadSize(2, "batchModify", "modifies", |b.edits|);
    forall i | 0 <= i < |b.edits| ensures |Enc(ModifyToks(b.edits[i]))| <= MODIFY_MAX { ModifySize(b.edits[i]); }
    ListSize(ModifyToks, b.edits, MODIFY_MAX);
    FlatMapAppend(EncToken, BulkHead(2, "batchModify", "modifies", |b.edits|), FlatMap(ModifyToks, b.edits));
  }

  lemma BulkCancelSize(b: Body)
    requires b.BulkCancel?
    ensures |Enc(BodyToks(b))| <= 117
  {
    hide EncToken, Ascii, CancelToks, BulkHead;
    BulkHeadSize(2, "cancel", "cancels", |b.cancels|);
    forall i | 0 <= i < |b.cancels| ensures |Enc(CancelToks(b.cancels[i]))| <= CANCEL_MAX { CancelSize(b.cancels[i]); }
    ListSize(CancelToks, b.cancels, CANCEL_MAX);
    FlatMapAppend(EncToken, BulkHead(2, "cancel", "cancels", |b.cancels|), FlatMap(CancelToks, b.cancels));
  }

  lemma RecordSize(b: Body)
    requires b.UpdateLeverage? || b.UpdateIsolatedMargin?
    ensures |Enc(BodyToks(b))| <= 59
  {
    hide EncToken, Ascii;
    TokenSizes();
    var ts := BodyToks(b);
    if b.UpdateLeverage? {
      FlatMapBound(EncToken, ts, [0, 1, 6, 21, 27, 32, 40, 41, 50, 55]);
    } else {
      FlatMapBound(EncToken, ts, [0, 1, 6, 27, 33, 38, 44, 45, 50, 59]);
    }
  }

  /** Every action that can be built fits the 1024-byte buffer with room to spare. */
  lemma EveryActionFits(b: Body)
    requires Serializable(b)
    ensures |BodyBytes(b)| <= 938 < 1024 == MAX_SERIALIZED_ACTION_SIZE
  {
    hide BodyToks, Enc;
    match b
    case BulkOrder(_, _, _) => BulkOrderSize(b);
    case BulkModify(_) => BulkModifySize(b);
    case BulkCancel(_) => BulkCancelSize(b);
    case UpdateLeverage(_, _, _) => RecordSize(b);
    case UpdateIsolatedMargin(_, _, _) => RecordSize(b);
  }
}
