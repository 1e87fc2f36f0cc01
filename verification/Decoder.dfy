/** A reader for serialized actions, independent of the writer, and what follows from their round trip. */
module Decoder {
  import opened Bytes
  import opened MessagePack
  import opened Model
  import opened Serializer

  predicate IsU32(n: int) { 0 <= n < 0x1_0000_0000 }
  predicate IsU64(n: int) { 0 <= n < 0x1_0000_0000_0000_0000 }
  predicate IsI64(n: int) { -0x8000_0000_0000_0000 <= n < 0x8000_0000_0000_0000 }

  function ReadHexText(s: seq<byte>): Option<seq<byte>> {
    if |s| >= 2 && s[..2] == Ascii("0x") then Some(UnHex(s[2..])) else None
  }

  function ReadKind(ts: seq<Token>, i: nat): Option<(OrderKind, nat)> {
    if i + 4 <= |ts| && ts[i] == Lit("limit") && ts[i + 1] == MapHdr(1) && ts[i + 2] == Lit("tif") then
      if ts[i + 3] == Lit("Alo") then Some((Limit(Alo), i + 4))
      else if ts[i + 3] == Lit("Ioc") then Some((Limit(Ioc), i + 4))
      else if ts[i + 3] == Lit("Gtc") then Some((Limit(Gtc), i + 4))
      else None
    else if i + 8 <= |ts| && ts[i] == Lit("trigger") && ts[i + 1] == MapHdr(3) && ts[i + 2] == Lit("isMarket")
            && ts[i + 3].Bool? && ts[i + 4] == Lit("triggerPx") && ts[i + 5].Str? && IsNumeric(ts[i + 5].text)
            && ts[i + 6] == Lit("tpsl") then
      if ts[i + 7] == Lit("tp") then Some((Trigger(ts[i + 3].b, ts[i + 5].text, TakeProfit), i + 8))
      else if ts[i + 7] == Lit("sl") then Some((Trigger(ts[i + 3].b, ts[i + 5].text, StopLoss), i + 8))
      else None
    else None
  }

  function ReadCloid(ts: seq<Token>, i: nat, present: bool): Option<(Option<Cloid>, nat)> {
    if !present then Some((None, i))
    else if i + 2 <= |ts| && ts[i] == Lit("c") && ts[i + 1].Str? then
      var id :- ReadHexText(ts[i + 1].text);
      if |id| == CLOID_BYTES then Some((Some(id), i + 2)) else None
    else None
  }

  predicate IsOrderHead(ts: seq<Token>, i: nat) {
    i + 13 <= |ts| && (ts[i] == MapHdr(6) || ts[i] == MapHdr(7))
    && ts[i + 1] == Lit("a") && ts[i + 2].Int? && IsU32(ts[i + 2].n)
    && ts[i + 3] == Lit("b") && ts[i + 4].Bool?
    && ts[i + 5] == Lit("p") && ts[i + 6].Str? && IsNumeric(ts[i + 6].text)
    && ts[i + 7] == Lit("s") && ts[i + 8].Str? && IsNumeric(ts[i + 8].text)
    && ts[i + 9] == Lit("r") && ts[i + 10].Bool?
    && ts[i + 11] == Lit("t") && ts[i + 12] == MapHdr(1)
  }

  function OrderFrom(ts: seq<Token>, i: nat, kind: OrderKind, cloid: Option<Cloid>): OrderRequest
    requires IsOrderHead(ts, i)
  {
    OrderRequest(ts[i + 2].n, ts[i + 4].b, ts[i + 6].text, ts[i + 8].text, ts[i + 10].b, kind, cloid)
  }

  function ReadOrder(ts: seq<Token>, i: nat): Option<(OrderRequest, nat)> {
    if IsOrderHead(ts, i) then
      var (kind, j) :- ReadKind(ts, i + 13);
      var (cloid, k) :- ReadCloid(ts, j, ts[i] == MapHdr(7));
      Some((OrderFrom(ts, i, kind, cloid), k))
    else None
  }

  function ReadModify(ts: seq<Token>, i: nat): Option<(ModifyRequest, nat)> {
    if i + 4 <= |ts| && ts[i] == MapHdr(2) && ts[i + 1] == Lit("oid") && ts[i + 2].Int? && IsU64(ts[i + 2].n)
       && ts[i + 3] == Lit("order")
    then
      var (order, j) :- ReadOrder(ts, i + 4);
      Some((ModifyRequest(ts[i + 2].n, order), j))
    else None
  }

  function ReadCancel(ts: seq<Token>, i: nat): Option<(CancelRequest, nat)> {
    if i + 5 <= |ts| && ts[i] == MapHdr(2) && ts[i + 1] == Lit("a") && ts[i + 2].Int? && IsU32(ts[i + 2].n)
       && ts[i + 3] == Lit("o") && ts[i + 4].Int? && IsU64(ts[i + 4].n)
    then Some((CancelRequest(ts[i + 2].n, ts[i + 4].n), i + 5))
    else None
  }

  type Reader<!X> = (seq<Token>, nat) -> Option<(X, nat)>

  function ReadList<X>(read: Reader<X>, ts: seq<Token>, i: nat, count: nat): (r: Option<(seq<X>, nat)>)
    ensures r.Some? ==> |r.value.0| == count
  {
    if count == 0 then Some(([], i)) else
    var (xs, j) :- ReadList(read, ts, i, count - 1);
    var (x, k) :- read(ts, j);
    Some((xs + [x], k))
  }

  function ReadBuilder(ts: seq<Token>, i: nat, present: bool): Option<(Option<BuilderInfo>, nat)> {
    if !present then Some((None, i))
    else if i + 6 <= |ts| && ts[i] == Lit("builder") && ts[i + 1] == MapHdr(2) && ts[i + 2] == Lit("b")
            && ts[i + 3].Str? && ts[i + 4] == Lit("f") && ts[i + 5].Int? && IsU64(ts[i + 5].n) then
      var addr :- ReadHexText(ts[i + 3].text);
      if |addr| == ADDRESS_LENGTH then Some((Some(BuilderInfo(addr, ts[i + 5].n)), i + 6)) else None
    else None
  }

  function ReadGrouping(t: Token): Option<Grouping> {
    if t == Lit("na") then Some(Na)
    else if t == Lit("normalTpsl") then Some(NormalTpsl)
    else if t == Lit("positionTpsl") then Some(PositionTpsl)
    else None
  }

  function ReadBulkOrderTail(ts: seq<Token>, j: nat): Option<(Grouping, Option<BuilderInfo>)> {
    if 0 < j && j + 2 <= |ts| && ts[j] == Lit("grouping") then
      var grouping :- ReadGrouping(ts[j + 1]);
      var (builder, k) :- ReadBuilder(ts, j + 2, ts[0] == MapHdr(4));
      if k == |ts| then Some((grouping, builder)) else None
    else None
  }

  function ReadBulkOrder(ts: seq<Token>, count: nat): Option<Body> {
    var (orders, j) :- ReadList(ReadOrder, ts, 5, count);
    var (grouping, builder) :- ReadBulkOrderTail(ts, j);
    if count <= BULK_MAX_SIZE then Some(BulkOrder(orders, grouping, builder)) else None
  }

  /** Reads a whole token sequence as one of the five serialized actions. */
  function ReadBody(ts: seq<Token>): Option<Body> {
    if |ts| < 5 || ts[1] != Lit("type") then None
    else if ts[2] == Lit("order") && ts[3] == Lit("orders") && ts[4].ArrHdr?
            && (ts[0] == MapHdr(3) || ts[0] == MapHdr(4)) then
      ReadBulkOrder(ts, ts[4].count)
    else if ts[0] == MapHdr(2) && ts[2] == Lit("batchModify") && ts[3] == Lit("modifies") && ts[4].ArrHdr? then
      var (edits, j) :- ReadList(ReadModify, ts, 5, ts[4].count);
      if j == |ts| && |edits| <= BULK_MAX_SIZE then Some(BulkModify(edits)) else None
    else if ts[0] == MapHdr(2) && ts[2] == Lit("cancel") && ts[3] == Lit("cancels") && ts[4].ArrHdr? then
      var (cancels, j) :- ReadList(ReadCancel, ts, 5, ts[4].count);
      if j == |ts| && |cancels| <= BULK_MAX_SIZE then Some(BulkCancel(cancels)) else None
    else if |ts| == 9 && ts[0] == MapHdr(4) && ts[3] == Lit("asset") && ts[4].Int? && IsU32(ts[4].n)
            && ts[6].Bool? && ts[8].Int? then
      if ts[2] == Lit("updateLeverage") && ts[5] == Lit("isCross") && ts[7] == Lit("leverage") && IsU32(ts[8].n) then
        Some(UpdateLeverage(ts[4].n, ts[6].b, ts[8].n))
      else if ts[2] == Lit("updateIsolatedMargin") && ts[5] == Lit("isBuy") && ts[7] == Lit("ntli")
              && IsI64(ts[8].n) then
        Some(UpdateIsolatedMargin(ts[4].n, ts[6].b, ts[8].n))
      else None
    else None
  }

  /** Reads one serialized action from the front of bs. */
  function DecodeBody(bs: seq<byte>): Option<(Body, seq<byte>)> {
    var (ts, rest) :- ReadValues(bs, 1);
    var b :- ReadBody(ts);
    Some((b, rest))
  }

  // ---------------------------------------------------------------- round trips

  lemma LitsDiffer()
    ensures Lit("Alo") != Lit("Ioc") && Lit("Alo") != Lit("Gtc") && Lit("Ioc") != Lit("Gtc")
    ensures Lit("tp") != Lit("sl") && Lit("limit") != Lit("trigger")
    ensures Lit("na") != Lit("normalTpsl") && Lit("na") != Lit("positionTpsl")
    ensures Lit("normalTpsl") != Lit("positionTpsl")
    ensures Lit("order") != Lit("batchModify") && Lit("order") != Lit("cancel")
    ensures Lit("order") != Lit("updateLeverage") && Lit("order") != Lit("updateIsolatedMargin")
    ensures Lit("batchModify") != Lit("cancel") && Lit("updateLeverage") != Lit("updateIsolatedMargin")
  {
    assert Ascii("Alo")[0] == 65 && Ascii("Ioc")[0] == 73 && Ascii("Gtc")[0] == 71;
    assert Ascii("tp")[0] == 116 && Ascii("sl")[0] == 115;
  }

  lemma ReadHexTextInverts(bs: seq<byte>)
    ensures ReadHexText(HexText(bs)) == Some(bs)
  {
    assert HexText(bs)[..2] == Ascii("0x") && HexText(bs)[2..] == Hex(bs);
    UnHexInvertsHex(bs);
  }

  lemma KindRoundTrip(ts: seq<Token>, i: nat, k: OrderKind)
    requires At(ts, i, KindToks(k))
    ensures ReadKind(ts, i) == Some((k, i + |KindToks(k)|))
  {
    hide Lit;
    AtIndex(ts, i, KindToks(k));
    LitsDiffer();
    assert ts[i + 0] == KindToks(k)[0];
    match k
    case Limit(tif) =>
      assert ts[i + 3] == TifText(tif);
    case Trigger(_, _, tpsl) =>
      assert ts[i + 7] == TpslText(tpsl);
  }

  lemma CloidRoundTrip(ts: seq<Token>, i: nat, c: Option<Cloid>)
    requires At(ts, i, CloidToks(c))
    ensures ReadCloid(ts, i, c.Some?) == Some((c, i + |CloidToks(c)|))
  {
    AtIndex(ts, i, CloidToks(c));
    if c.Some? {
      assert ts[i + 0] == Lit("c");
      ReadHexTextInverts(c.value);
    }
  }

  lemma OrderHeadRoundTrip(ts: seq<Token>, i: nat, o: OrderRequest)
    requires At(ts, i, OrderHead(o))
    ensures IsOrderHead(ts, i) && OrderFrom(ts, i, o.kind, o.cloid) == o
    ensures ts[i] == MapHdr(7) <==> o.cloid.Some?
  {
    hide Lit;
    AtIndex(ts, i, OrderHead(o));
    assert ts[i + 0] == OrderHead(o)[0];
  }

  lemma OrderPartsRoundTrip(ts: seq<Token>, i: nat, o: OrderRequest, kind: seq<Token>, cloid: seq<Token>)
    requires IsOrderHead(ts, i) && OrderFrom(ts, i, o.kind, o.cloid) == o
    requires ts[i] == MapHdr(7) <==> o.cloid.Some?
    requires ReadKind(ts, i + 13) == Some((o.kind, i + 13 + |kind|))
    requires ReadCloid(ts, i + 13 + |kind|, o.cloid.Some?) == Some((o.cloid, i + 13 + |kind| + |cloid|))
    ensures ReadOrder(ts, i) == Some((o, i + 13 + |kind| + |cloid|))
  {
    hide IsOrderHead, ReadKind, ReadCloid, OrderFrom;
  }

  lemma OrderToksSplit(ts: seq<Token>, i: nat, o: OrderRequest)
    requires At(ts, i, OrderToks(o))
    ensures var k := |KindToks(o.kind)|;
            At(ts, i, OrderHead(o)) && At(ts, i + 13, KindToks(o.kind)) && At(ts, i + 13 + k, CloidToks(o.cloid))
            && |OrderToks(o)| == 13 + k + |CloidToks(o.cloid)|
  {
    var kind, cloid := KindToks(o.kind), CloidToks(o.cloid);
    AtSplit(ts, i, OrderHead(o), kind + cloid);
    AtSplit(ts, i + 13, kind, cloid);
  }

  lemma OrderRoundTrip(ts: seq<Token>, i: nat, o: OrderRequest)
    requires At(ts, i, OrderToks(o))
    ensures ReadOrder(ts, i) == Some((o, i + |OrderToks(o)|))
  {
    hide KindToks, CloidToks, OrderHead, OrderToks, ReadKind, ReadCloid, ReadOrder, IsOrderHead, OrderFrom;
    OrderToksSplit(ts, i, o);
    KindRoundTrip(ts, i + 13, o.kind);
    CloidRoundTrip(ts, i + 13 + |KindToks(o.kind)|, o.cloid);
    OrderHeadRoundTrip(ts, i, o);
    OrderPartsRoundTrip(ts, i, o, KindToks(o.kind), CloidToks(o.cloid));
  }

  lemma ModifyRoundTrip(ts: seq<Token>, i: nat, m: ModifyRequest)
    requires At(ts, i, ModifyToks(m))
    ensures ReadModify(ts, i) == Some((m, i + |ModifyToks(m)|))
  {
    hide Ascii, OrderToks, ReadOrder;
    var h := [MapHdr(2), Lit("oid"), Int(m.oid), Lit("order")];
    AtSplit(ts, i, h, OrderToks(m.order));
    OrderRoundTrip(ts, i + 4, m.order);
    AtIndex(ts, i, h);
    assert ts[i + 0] == h[0];
  }

  lemma CancelRoundTrip(ts: seq<Token>, i: nat, c: CancelRequest)
    requires At(ts, i, CancelToks(c))
    ensures ReadCancel(ts, i) == Some((c, i + |CancelToks(c)|))
  {
    AtIndex(ts, i, CancelToks(c));
    assert ts[i + 0] == CancelToks(c)[0];
  }

  ghost predicate ReadsBackAt<X>(emit: X -> seq<Token>, read: Reader<X>, x: X, ts: seq<Token>, i: nat) {
    At(ts, i, emit(x)) ==> read(ts, i) == Some((x, i + |emit(x)|))
  }

  ghost predicate ReadsBack<X(!new)>(emit: X -> seq<Token>, read: Reader<X>) {
    forall x: X, ts: seq<Token>, i: nat :: ReadsBackAt(emit, read, x, ts, i)
  }

  lemma {:induction false} ListRoundTrip<X(!new)>(emit: X -> seq<Token>, read: Reader<X>, ts: seq<Token>, i: nat,
                                                 xs: seq<X>)
    requires ReadsBack(emit, read)
    requires At(ts, i, FlatMap(emit, xs))
    ensures ReadList(read, ts, i, |xs|) == Some((xs, i + |FlatMap(emit, xs)|))
  {
    if xs != [] {
      var init, last := xs[..|xs| - 1], xs[|xs| - 1];
      AtSplit(ts, i, FlatMap(emit, init), emit(last));
      ListRoundTrip(emit, read, ts, i, init);
      assert ReadsBackAt(emit, read, last, ts, i + |FlatMap(emit, init)|);
      assert xs == init + [last];
    }
  }

  lemma OrdersReadBack()
    ensures ReadsBack(OrderToks, ReadOrder)
  {
    hide OrderToks, ReadOrder;
    forall o: OrderRequest, ts: seq<Token>, i: nat
      ensures ReadsBackAt(OrderToks, ReadOrder, o, ts, i)
    {
      if At(ts, i, OrderToks(o)) {
        OrderRoundTrip(ts, i, o);
      }
    }
  }

  lemma ModifiesReadBack()
    ensures ReadsBack(ModifyToks, ReadModify)
  {
    hide ModifyToks, ReadModify;
    forall m: ModifyRequest, ts: seq<Token>, i: nat
      ensures ReadsBackAt(ModifyToks, ReadModify, m, ts, i)
    {
      if At(ts, i, ModifyToks(m)) {
        ModifyRoundTrip(ts, i, m);
      }
    }
  }

  lemma CancelsReadBack()
    ensures ReadsBack(CancelToks, ReadCancel)
  {
    forall c: CancelRequest, ts: seq<Token>, i: nat
      ensures ReadsBackAt(CancelToks, ReadCancel, c, ts, i)
    {
      if At(ts, i, CancelToks(c)) {
        CancelRoundTrip(ts, i, c);
      }
    }
  }

  lemma BuilderRoundTrip(ts: seq<Token>, i: nat, b: Option<BuilderInfo>)
    requires At(ts, i, BuilderToks(b))
    ensures ReadBuilder(ts, i, b.Some?) == Some((b, i + |BuilderToks(b)|))
  {
    hide Lit, HexText, ReadHexText, EncToken;
    if b.Some? {
      AtIndex(ts, i, BuilderToks(b));
      ReadHexTextInverts(b.value.builder);
      assert ts[i + 0] == Lit("builder");
      assert ts[i + 3].text == HexText(b.value.builder);
    }
  }

  lemma GroupingRoundTrip(g: Grouping)
    ensures ReadGrouping(GroupingText(g)) == Some(g)
  {
    hide Lit;
    LitsDiffer();
  }

  lemma BulkOrderTailRoundTrip(ts: seq<Token>, j: nat, grouping: Grouping, builder: Option<BuilderInfo>)
    requires 0 < j && At(ts, j, [Lit("grouping"), GroupingText(grouping)] + BuilderToks(builder))
    requires j + 2 + |BuilderToks(builder)| == |ts| && (ts[0] == MapHdr(4) <==> builder.Some?)
    ensures ReadBulkOrderTail(ts, j) == Some((grouping, builder))
  {
    hide Lit, BuilderToks, ReadBuilder, ReadGrouping, GroupingText;
    var head := [Lit("grouping"), GroupingText(grouping)];
    AtSplit(ts, j, head, BuilderToks(builder));
    AtIndex(ts, j, head);
    assert ts[j + 0] == Lit("grouping");
    GroupingRoundTrip(grouping);
    BuilderRoundTrip(ts, j + 2, builder);
  }

  lemma BulkOrderRoundTrip(b: Body)
    requires b.BulkOrder?
    ensures ReadBulkOrder(BodyToks(b), |b.orders|) == Some(b)
  {
    hide Lit, OrderToks, ReadOrder, BuilderToks, ReadBulkOrderTail, GroupingText;
    var ts := BodyToks(b);
    var list, tail := FlatMap(OrderToks, b.orders), [Lit("grouping"), GroupingText(b.grouping)];
    AtWhole(ts);
    AtSplit(ts, 0, ts[..5], list + (tail + BuilderToks(b.builder)));
    AtSplit(ts, 5, list, tail + BuilderToks(b.builder));
    OrdersReadBack();
    ListRoundTrip(OrderToks, ReadOrder, ts, 5, b.orders);
    BulkOrderTailRoundTrip(ts, 5 + |list|, b.grouping, b.builder);
  }

  lemma BulkOrderReadsBack(b: Body)
    requires b.BulkOrder?
    ensures ReadBody(BodyToks(b)) == Some(b)
  {
    hide Lit, ReadModify, ReadBulkOrder, ReadCancel, ReadList, FlatMap;
    BulkOrderRoundTrip(b);
  }

  lemma BulkModifyRoundTrip(b: Body)
    requires b.BulkModify?
    ensures ReadBody(BodyToks(b)) == Some(b)
  {
    hide Lit, ModifyToks, ReadModify, ReadBulkOrder, ReadCancel;
    var ts := BodyToks(b);
    AtWhole(ts);
    LitsDiffer();
    AtSplit(ts, 0, ts[..5], FlatMap(ModifyToks, b.edits));
    ModifiesReadBack();
    ListRoundTrip(ModifyToks, ReadModify, ts, 5, b.edits);
  }

  lemma BulkCancelRoundTrip(b: Body)
    requires b.BulkCancel?
    ensures ReadBody(BodyToks(b)) == Some(b)
  {
    hide Lit, CancelToks, ReadModify, ReadBulkOrder, ReadCancel;
    var ts := BodyToks(b);
    AtWhole(ts);
    LitsDiffer();
    AtSplit(ts, 0, ts[..5], FlatMap(CancelToks, b.cancels));
    CancelsReadBack();
    ListRoundTrip(CancelToks, ReadCancel, ts, 5, b.cancels);
  }

  lemma RecordRoundTrip(b: Body)
    requires b.UpdateLeverage? || b.UpdateIsolatedMargin?
    ensures ReadBody(BodyToks(b)) == Some(b)
  {
    hide Lit, ReadModify, ReadBulkOrder, ReadCancel, ReadList;
    LitsDiffer();
  }

  lemma BodyToksRoundTrip(b: Body)
    requires Serializable(b)
    ensures ReadBody(BodyToks(b)) == Some(b)
  {
    hide Lit, BodyToks, ReadBulkOrder, ReadList;
    match b
    case BulkOrder(_, _, _) => BulkOrderReadsBack(b);
    case BulkModify(_) => BulkModifyRoundTrip(b);
    case BulkCancel(_) => BulkCancelRoundTrip(b);
    case UpdateLeverage(_, _, _) => RecordRoundTrip(b);
    case UpdateIsolatedMargin(_, _, _) => RecordRoundTrip(b);
  }

  /** The bytes of an action: what the serializers leave in the buffer. */
  function BodyBytes(b: Body): seq<byte>
    requires Serializable(b)
  {
    Enc(BodyToks(b))
  }

  /** Any serialized action is recovered from its bytes, and whatever follows it is left untouched. */
  lemma SerializationRoundTrip(b: Body, rest: seq<byte>)
    requires Serializable(b)
    ensures DecodeBody(BodyBytes(b) + rest) == Some((b, rest))
  {
    hide BodyToks, ReadBody;
    BodyIsDocument(b);
    DocumentRoundTrip(BodyToks(b), rest);
    BodyToksRoundTrip(b);
  }

  /** No two actions share their bytes, even across kinds and with different data behind them. */
  lemma SerializationInjective(b: Body, rest: seq<byte>, b': Body, rest': seq<byte>)
    requires Serializable(b) && Serializable(b')
    requires BodyBytes(b) + rest == BodyBytes(b') + rest'
    ensures b == b' && rest == rest'
  {
    SerializationRoundTrip(b, rest);
    SerializationRoundTrip(b', rest');
  }
}
