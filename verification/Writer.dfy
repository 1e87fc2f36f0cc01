/**
 The serialization buffer and the serializers that append to it, one cmp call after another, giving up
 at the first call that does not fit.
 */
module Writer {
  import opened Bytes
  import opened MessagePack
  import opened Model
  import opened Serializer
  import opened Decoder

  class SerBuffer {
    const buf: array<byte>
    var offset: nat
    ghost const base: seq<byte>    // what the buffer held when the document was started
    ghost const doc: seq<Token>    // the document being written
    ghost var pos: nat             // how many of its tokens are written

    /** The bytes from before the document are still there. */
    ghost predicate Intact()
      reads this, buf
    {
      |base| <= offset <= buf.Length && buf[..|base|] == base
    }

    ghost predicate Valid()
      reads this, buf
    {
      Intact() && pos <= |doc| && buf[..offset] == base + Enc(doc[..pos])
    }

    /** us comes next in the document. */
    ghost predicate Ahead(us: seq<Token>)
      reads this
    {
      At(doc, pos, us)
    }

    /** t comes next in the document. */
    ghost predicate Next(t: Token)
      reads this
    {
      pos < |doc| && doc[pos] == t
    }

    /** The outcome of appending the next k tokens: all of them, or the document does not fit the buffer. */
    twostate predicate Appended(ok: bool, k: nat)
      reads this, buf
    {
      if ok then Valid() && pos == old(pos) + k
      else Intact() && |base| + |Enc(doc)| > buf.Length
    }

    /** cmp_init: the document goal is about to be written into raw, from start on. */
    constructor (raw: array<byte>, start: nat, ghost goal: seq<Token>)
      requires start <= raw.Length
      ensures Valid() && buf == raw && offset == start && base == raw[..start] && doc == goal && pos == 0
    {
      buf, offset, base, doc, pos := raw, start, raw[..start], goal, 0;
    }

    /** ser_writer: takes all of data or none of it. */
    method SerWriter(data: seq<byte>) returns (count: nat)
      requires offset <= buf.Length
      modifies this`offset, buf
      ensures old(offset) <= offset <= buf.Length
      ensures count == if old(offset) + |data| <= buf.Length then |data| else 0
      ensures old(offset) + |data| <= buf.Length ==> buf[..offset] == old(buf[..offset]) + data
      ensures old(offset) + |data| > buf.Length ==> offset == old(offset) && buf[..] == old(buf[..])
      ensures buf[..old(offset)] == old(buf[..offset])
    {
      if offset + |data| > buf.Length {
        return 0;
      }
      forall i | 0 <= i < |data| {
        buf[offset + i] := data[i];
      }
      offset := offset + |data|;
      return |data|;
    }

    /** One cmp_write call: the marker and length bytes first, then the payload. */
    method WriteParts(head: seq<byte>, payload: seq<byte>, ghost t: Token) returns (ok: bool)
      requires Valid() && Next(t) && EncToken(t) == head + payload
      modifies this, buf
      ensures Appended(ok, 1)
    {
      hide EncToken, Enc;
      EncStep(t);
      ghost var done := base + Enc(doc[..pos]);
      var n := SerWriter(head);
      assert buf[..|base|] == base;
      if n != |head| {
        return false;
      }
      n := SerWriter(payload);
      assert buf[..|base|] == base;
      if n != |payload| {
        return false;
      }
      assert done + head + payload == done + (head + payload);
      pos := pos + 1;
      return true;
    }

    lemma EncStep(t: Token)
      requires Next(t)
      ensures base + Enc(doc[..pos + 1]) == base + Enc(doc[..pos]) + EncToken(t)
      ensures |Enc(doc[..pos + 1])| <= |Enc(doc)|
    {
      hide EncToken;
      var before, rest := doc[..pos], doc[pos + 1..];
      assert doc == (before + [t]) + rest && doc[..pos + 1] == before + [t];
      FlatMapSnoc(EncToken, before, t);
      FlatMapAppend(EncToken, before + [t], rest);
    }

    method WriteMap(size: u32) returns (ok: bool)
      requires Valid() && Next(MapHdr(size))
      modifies this, buf
      ensures Appended(ok, 1)
    {
      ok := WriteParts(EncMapHdr(size), [], MapHdr(size));
    }

    method WriteArray(count: u32) returns (ok: bool)
      requires Valid() && Next(ArrHdr(count))
      modifies this, buf
      ensures Appended(ok, 1)
    {
      ok := WriteParts(EncArrHdr(count), [], ArrHdr(count));
    }

    method WriteStr(text: Text) returns (ok: bool)
      requires Valid() && Next(Str(text))
      modifies this, buf
      ensures Appended(ok, 1)
    {
      ok := WriteParts(EncStrHdr(|text|), text, Str(text));
    }

    method WriteInteger(n: Word) returns (ok: bool)
      requires Valid() && Next(Int(n))
      modifies this, buf
      ensures Appended(ok, 1)
    {
      ok := WriteParts(EncInt(n), [], Int(n));
    }

    method WriteBool(b: bool) returns (ok: bool)
      requires Valid() && Next(Bool(b))
      modifies this, buf
      ensures Appended(ok, 1)
    {
      ok := WriteParts([if b then 0xc3 else 0xc2], [], Bool(b));
    }

    /** One literal key or value. */
    method WriteLit(s: string) returns (ok: bool)
      requires |s| < 32
      requires Valid() && Next(Lit(s))
      modifies this, buf
      ensures Appended(ok, 1)
    {
      ok := WriteStr(Ascii(s));
    }
  }

  /** "0x" and the hex digits of value, built in a local character buffer. */
  method HexString(value: seq<byte>) returns (text: seq<byte>)
    ensures text == HexText(value)
  {
    var str := new byte[2 + 2 * |value| + 1](_ => 0);
    var prefix := Ascii("0x");
    str[0], str[1] := prefix[0], prefix[1];
    assert str[..2] == prefix;
    var ok := BytesToLowercaseHex(str, 2, value);
    text := str[..2 + 2 * |value|];
    assert text == str[..2] + str[2..2 + 2 * |value|];
  }

  // ---------------------------------------------------------------- serializers

  /** A key and its value: two cmp calls in a row. */
  method WriteStrPair(key: string, text: Text, w: SerBuffer) returns (ok: bool)
    requires |key| < 32 && w.Valid() && w.Ahead([Lit(key), Str(text)])
    modifies w, w.buf
    ensures w.Appended(ok, 2)
  {
    hide Lit, Enc, SerBuffer.Valid, SerBuffer.Intact;
    AtPair(w.doc, w.pos, Lit(key), Str(text));
    ok := w.WriteLit(key);
    if !ok { return false; }
    ok := w.WriteStr(text);
  }

  method WriteIntPair(key: string, n: Word, w: SerBuffer) returns (ok: bool)
    requires |key| < 32 && w.Valid() && w.Ahead([Lit(key), Int(n)])
    modifies w, w.buf
    ensures w.Appended(ok, 2)
  {
    hide Lit, Enc, SerBuffer.Valid, SerBuffer.Intact;
    AtPair(w.doc, w.pos, Lit(key), Int(n));
    ok := w.WriteLit(key);
    if !ok { return false; }
    ok := w.WriteInteger(n);
  }

  method WriteBoolPair(key: string, b: bool, w: SerBuffer) returns (ok: bool)
    requires |key| < 32 && w.Valid() && w.Ahead([Lit(key), Bool(b)])
    modifies w, w.buf
    ensures w.Appended(ok, 2)
  {
    hide Lit, Enc, SerBuffer.Valid, SerBuffer.Intact;
    AtPair(w.doc, w.pos, Lit(key), Bool(b));
    ok := w.WriteLit(key);
    if !ok { return false; }
    ok := w.WriteBool(b);
  }

  lemma AtPair(ts: seq<Token>, i: nat, a: Token, b: Token)
    requires At(ts, i, [a, b])
    ensures i + 2 <= |ts| && ts[i] == a && ts[i + 1] == b
  {
    AtIndex(ts, i, [a, b]);
    assert ts[i + 0] == a;
  }

  /** The next tokens, one by one. */
  lemma Pieces(ts: seq<Token>, i: nat, us: seq<Token>)
    requires At(ts, i, us)
    ensures i + |us| <= |ts|
    ensures |us| > 0 ==> ts[i] == us[0]
    ensures |us| > 1 ==> ts[i + 1] == us[1]
    ensures |us| > 2 ==> ts[i + 2] == us[2]
    ensures |us| > 3 ==> ts[i + 3] == us[3]
    ensures |us| > 4 ==> ts[i + 4] == us[4]
    ensures |us| > 5 ==> ts[i + 5] == us[5]
    ensures |us| > 6 ==> ts[i + 6] == us[6]
    ensures |us| > 7 ==> ts[i + 7] == us[7]
  {
    AtIndex(ts, i, us);
    if |us| > 0 {
      assert ts[i + 0] == us[0];
    }
  }

  method LimitOrderSerialize(tif: Tif, w: SerBuffer) returns (ok: bool)
    requires w.Valid() && w.Ahead(KindToks(Limit(tif)))
    modifies w, w.buf
    ensures w.Appended(ok, |KindToks(Limit(tif))|)
  {
    hide Lit, Enc, SerBuffer.Valid, SerBuffer.Intact;
    Pieces(w.doc, w.pos, KindToks(Limit(tif)));
    ok := w.WriteLit("limit");
    if !ok { return false; }
    ok := w.WriteMap(1);
    if !ok { return false; }
    ok := w.WriteLit("tif");
    if !ok { return false; }
    match tif {
      case Alo =>
        ok := w.WriteLit("Alo");
        if !ok { return false; }
      case Ioc =>
        ok := w.WriteLit("Ioc");
        if !ok { return false; }
      case Gtc =>
        ok := w.WriteLit("Gtc");
        if !ok { return false; }
    }
    return true;
  }

  method TriggerOrderSerialize(isMarket: bool, triggerPx: Numeric, tpsl: Tpsl, w: SerBuffer) returns (ok: bool)
    requires w.Valid() && w.Ahead(KindToks(Trigger(isMarket, triggerPx, tpsl)))
    modifies w, w.buf
    ensures w.Appended(ok, |KindToks(Trigger(isMarket, triggerPx, tpsl))|)
  {
    hide Lit, Enc, SerBuffer.Valid, SerBuffer.Intact;
    Pieces(w.doc, w.pos, KindToks(Trigger(isMarket, triggerPx, tpsl)));
    ok := w.WriteLit("trigger");
    if !ok { return false; }
    ok := w.WriteMap(3);
    if !ok { return false; }
    ok := w.WriteLit("isMarket");
    if !ok { return false; }
    ok := w.WriteBool(isMarket);
    if !ok { return false; }
    ok := w.WriteLit("triggerPx");
    if !ok { return false; }
    ok := w.WriteStr(triggerPx);
    if !ok { return false; }
    ok := w.WriteLit("tpsl");
    if !ok { return false; }
    match tpsl {
      case TakeProfit =>
        ok := w.WriteLit("tp");
        if !ok { return false; }
      case StopLoss =>
        ok := w.WriteLit("sl");
        if !ok { return false; }
    }
    return true;
  }

  /** The order's tokens, piece by piece. */
  lemma OrderPieces(ts: seq<Token>, i: nat, o: OrderRequest)
    requires At(ts, i, OrderToks(o))
    ensures i < |ts| && ts[i] == MapHdr(if o.cloid.Some? then 7 else 6)
    ensures At(ts, i + 1, [Lit("a"), Int(o.asset)])
    ensures At(ts, i + 3, [Lit("b"), Bool(o.isBuy)])
    ensures At(ts, i + 5, [Lit("p"), Str(o.limitPx)])
    ensures At(ts, i + 7, [Lit("s"), Str(o.sz)])
    ensures At(ts, i + 9, [Lit("r"), Bool(o.reduceOnly)])
    ensures At(ts, i + 11, [Lit("t"), MapHdr(1)])
    ensures At(ts, i + 13, KindToks(o.kind))
    ensures At(ts, i + 13 + |KindToks(o.kind)|, CloidToks(o.cloid))
    ensures |OrderToks(o)| == 13 + |KindToks(o.kind)| + |CloidToks(o.cloid)|
  {
    hide Lit, KindToks, CloidToks;
    OrderToksSplit(ts, i, o);
    var h := OrderHead(o);
    AtIndex(ts, i, h);
    assert ts[i + 0] == h[0];
    AtSlice(ts, i, h, 1);
    AtSlice(ts, i, h, 3);
    AtSlice(ts, i, h, 5);
    AtSlice(ts, i, h, 7);
    AtSlice(ts, i, h, 9);
    AtSlice(ts, i, h, 11);
  }

  lemma AtSlice(ts: seq<Token>, i: nat, us: seq<Token>, k: nat)
    requires At(ts, i, us) && k + 2 <= |us|
    ensures At(ts, i + k, [us[k], us[k + 1]])
  {
    AtIndex(ts, i, us);
    assert ts[i + k..i + k + 2] == [us[k], us[k + 1]];
  }

  /** The "t" pair: a one-entry map holding the limit or the trigger. */
  method OrderTypeSerialize(kind: OrderKind, w: SerBuffer) returns (ok: bool)
    requires w.Valid() && w.Ahead([Lit("t"), MapHdr(1)]) && At(w.doc, w.pos + 2, KindToks(kind))
    modifies w, w.buf
    ensures w.Appended(ok, 2 + |KindToks(kind)|)
  {
    hide Lit, Enc, SerBuffer.Valid, SerBuffer.Intact, KindToks;
    AtPair(w.doc, w.pos, Lit("t"), MapHdr(1));
    ok := w.WriteLit("t");
    if !ok { return false; }
    ok := w.WriteMap(1);
    if !ok { return false; }
    match kind {
      case Limit(tif) =>
        ok := LimitOrderSerialize(tif, w);
        if !ok { return false; }
      case Trigger(isMarket, triggerPx, tpsl) =>
        ok := TriggerOrderSerialize(isMarket, triggerPx, tpsl, w);
        if !ok { return false; }
    }
    return true;
  }

  method OrderRequestSerialize(o: OrderRequest, w: SerBuffer) returns (ok: bool)
    requires w.Valid() && w.Ahead(OrderToks(o))
    modifies w, w.buf
    ensures w.Appended(ok, |OrderToks(o)|)
  {
    hide Lit, Enc, SerBuffer.Valid, SerBuffer.Intact, KindToks, OrderToks, HexText, At;
    OrderPieces(w.doc, w.pos, o);
    ok := w.WriteMap(if o.cloid.Some? then 7 else 6);
    if !ok { return false; }
    ok := WriteIntPair("a", o.asset, w);
    if !ok { return false; }
    ok := WriteBoolPair("b", o.isBuy, w);
    if !ok { return false; }
    ok := WriteStrPair("p", o.limitPx, w);
    if !ok { return false; }
    ok := WriteStrPair("s", o.sz, w);
    if !ok { return false; }
    ok := WriteBoolPair("r", o.reduceOnly, w);
    if !ok { return false; }
    ok := OrderTypeSerialize(o.kind, w);
    if !ok { return false; }
    if o.cloid.Some? {
      ok := WriteStrPair("c", HexText(o.cloid.value), w);
      if !ok { return false; }
    }
    return true;
  }

  method ModifyRequestSerialize(m: ModifyRequest, w: SerBuffer) returns (ok: bool)
    requires w.Valid() && w.Ahead(ModifyToks(m))
    modifies w, w.buf
    ensures w.Appended(ok, |ModifyToks(m)|)
  {
    hide Lit, Enc, SerBuffer.Valid, SerBuffer.Intact, OrderToks;
    ghost var ts, i := w.doc, w.pos;
    assert i + 4 <= |ts| && ts[i] == MapHdr(2) && At(ts, i + 1, [Lit("oid"), Int(m.oid)]) && ts[i + 3] == Lit("order")
        && At(ts, i + 4, OrderToks(m.order)) by {
      ghost var head := [MapHdr(2), Lit("oid"), Int(m.oid), Lit("order")];
      AtSplit(ts, i, head, OrderToks(m.order));
      AtIndex(ts, i, head);
      AtSlice(ts, i, head, 1);
      assert ts[i + 0] == head[0];
    }
    ok := w.WriteMap(2);
    if !ok { return false; }
    ok := WriteIntPair("oid", m.oid, w);
    if !ok { return false; }
    ok := w.WriteLit("order");
    if !ok { return false; }
    ok := OrderRequestSerialize(m.order, w);
  }

  method CancelRequestSerialize(c: CancelRequest, w: SerBuffer) returns (ok: bool)
    requires w.Valid() && w.Ahead(CancelToks(c))
    modifies w, w.buf
    ensures w.Appended(ok, |CancelToks(c)|)
  {
    hide Lit, Enc, SerBuffer.Valid, SerBuffer.Intact;
    ghost var ts, i := w.doc, w.pos;
    assert i < |ts| && ts[i] == MapHdr(2) && At(ts, i + 1, [Lit("a"), Int(c.asset)])
        && At(ts, i + 3, [Lit("o"), Int(c.oid)]) by {
      AtIndex(ts, i, CancelToks(c));
      AtSlice(ts, i, CancelToks(c), 1);
      AtSlice(ts, i, CancelToks(c), 3);
      assert ts[i + 0] == CancelToks(c)[0];
    }
    ok := w.WriteMap(2);
    if !ok { return false; }
    ok := WriteIntPair("a", c.asset, w);
    if !ok { return false; }
    ok := WriteIntPair("o", c.oid, w);
  }

  /** builder_serialize, skipped when there is no builder. */
  method BuilderSerialize(b: Option<BuilderInfo>, w: SerBuffer) returns (ok: bool)
    requires w.Valid() && w.Ahead(BuilderToks(b))
    modifies w, w.buf
    ensures w.Appended(ok, |BuilderToks(b)|)
  {
    hide Lit, Enc, SerBuffer.Valid, SerBuffer.Intact, HexText;
    if b.None? {
      return true;
    }
    ghost var ts, i := w.doc, w.pos;
    assert i + 2 <= |ts| && ts[i] == Lit("builder") && ts[i + 1] == MapHdr(2)
        && At(ts, i + 2, [Lit("b"), Str(HexText(b.value.builder))]) && At(ts, i + 4, [Lit("f"), Int(b.value.fee)]) by {
      AtIndex(ts, i, BuilderToks(b));
      AtSlice(ts, i, BuilderToks(b), 2);
      AtSlice(ts, i, BuilderToks(b), 4);
      assert ts[i + 0] == BuilderToks(b)[0];
    }
    ok := w.WriteLit("builder");
    if !ok { return false; }
    ok := w.WriteMap(2);
    if !ok { return false; }
    var builderAddrStr := HexString(b.value.builder);
    ok := WriteStrPair("b", builderAddrStr, w);
    if !ok { return false; }
    ok := WriteIntPair("f", b.value.fee, w);
  }

  /** "type", its value, the list's name and the list's header. */
  method BulkHeadSerialize(fields: u32, kind: string, list: string, count: u32, w: SerBuffer) returns (ok: bool)
    requires |kind| < 32 && |list| < 32
    requires w.Valid() && w.Ahead(BulkHead(fields, kind, list, count))
    modifies w, w.buf
    ensures w.Appended(ok, 5)
  {
    hide Lit, Enc, SerBuffer.Valid, SerBuffer.Intact;
    Pieces(w.doc, w.pos, BulkHead(fields, kind, list, count));
    ok := w.WriteMap(fields);
    if !ok { return false; }
    ok := w.WriteLit("type");
    if !ok { return false; }
    ok := w.WriteLit(kind);
    if !ok { return false; }
    ok := w.WriteLit(list);
    if !ok { return false; }
    ok := w.WriteArray(count);
  }

  /** Item k of a list stands right after the first k items. */
  lemma ItemAt<X>(emit: X -> seq<Token>, ts: seq<Token>, i: nat, xs: seq<X>, k: nat)
    requires k < |xs| && At(ts, i, FlatMap(emit, xs))
    ensures At(ts, i + |FlatMap(emit, xs[..k])|, emit(xs[k]))
    ensures FlatMap(emit, xs[..k + 1]) == FlatMap(emit, xs[..k]) + emit(xs[k])
  {
    hide FlatMap, At;
    assert xs[..k + 1] == xs[..k] + [xs[k]] && xs == xs[..k + 1] + xs[k + 1..];
    FlatMapSnoc(emit, xs[..k], xs[k]);
    FlatMapAppend(emit, xs[..k + 1], xs[k + 1..]);
    AtSplit(ts, i, FlatMap(emit, xs[..k + 1]), FlatMap(emit, xs[k + 1..]));
    AtSplit(ts, i, FlatMap(emit, xs[..k]), emit(xs[k]));
  }

  method OrdersSerialize(orders: Batch<OrderRequest>, w: SerBuffer) returns (ok: bool)
    requires w.Valid() && w.Ahead(FlatMap(OrderToks, orders))
    modifies w, w.buf
    ensures w.Appended(ok, |FlatMap(OrderToks, orders)|)
  {
    hide Enc, SerBuffer.Intact, OrderToks;
    for i := 0 to |orders|
      invariant w.Valid() && w.pos == old(w.pos) + |FlatMap(OrderToks, orders[..i])|
    {
      ItemAt(OrderToks, w.doc, old(w.pos), orders, i);
      ok := OrderRequestSerialize(orders[i], w);
      if !ok { return false; }
    }
    assert orders[..|orders|] == orders;
    return true;
  }

  method GroupingSerialize(g: Grouping, w: SerBuffer) returns (ok: bool)
    requires w.Valid() && w.Ahead([Lit("grouping"), GroupingText(g)])
    modifies w, w.buf
    ensures w.Appended(ok, 2)
  {
    hide Lit, Enc, SerBuffer.Valid, SerBuffer.Intact;
    AtPair(w.doc, w.pos, Lit("grouping"), GroupingText(g));
    ok := w.WriteLit("grouping");
    if !ok { return false; }
    match g {
      case Na =>
        ok := w.WriteLit("na");
      case NormalTpsl =>
        ok := w.WriteLit("normalTpsl");
      case PositionTpsl =>
        ok := w.WriteLit("positionTpsl");
    }
  }

  /** The four parts of a bulk order. */
  lemma BulkOrderPieces(ts: seq<Token>, i: nat, head: seq<Token>, list: seq<Token>, tail: seq<Token>, rest: seq<Token>)
    requires At(ts, i, head + (list + (tail + rest)))
    ensures At(ts, i, head) && At(ts, i + |head|, list) && At(ts, i + |head| + |list|, tail)
    ensures At(ts, i + |head| + |list| + |tail|, rest)
    ensures |head + (list + (tail + rest))| == |head| + |list| + |tail| + |rest|
  {
    hide At;
    AtSplit(ts, i, head, list + (tail + rest));
    AtSplit(ts, i + |head|, list, tail + rest);
    AtSplit(ts, i + |head| + |list|, tail, rest);
  }

  method BulkOrderSerialize(b: Body, w: SerBuffer) returns (ok: bool)
    requires b.BulkOrder? && w.Valid() && w.Ahead(BodyToks(b))
    modifies w, w.buf
    ensures w.Appended(ok, |BodyToks(b)|)
  {
    hide Lit, Enc, SerBuffer.Valid, SerBuffer.Intact, OrderToks, BuilderToks, FlatMap, At, GroupingText;
    BulkOrderPieces(w.doc, w.pos, BulkHead(if b.builder.Some? then 4 else 3, "order", "orders", |b.orders|),
                    FlatMap(OrderToks, b.orders), [Lit("grouping"), GroupingText(b.grouping)], BuilderToks(b.builder));
    ok := BulkHeadSerialize(if b.builder.Some? then 4 else 3, "order", "orders", |b.orders|, w);
    if !ok { return false; }
    ok := OrdersSerialize(b.orders, w);
    if !ok { return false; }
    ok := GroupingSerialize(b.grouping, w);
    if !ok { return false; }
    ok := BuilderSerialize(b.builder, w);
  }

  method EditsSerialize(xs: Batch<ModifyRequest>, w: SerBuffer) returns (ok: bool)
    requires w.Valid() && w.Ahead(FlatMap(ModifyToks, xs))
    modifies w, w.buf
    ensures w.Appended(ok, |FlatMap(ModifyToks, xs)|)
  {
    hide Enc, SerBuffer.Intact, ModifyToks;
    for i := 0 to |xs|
      invariant w.Valid() && w.pos == old(w.pos) + |FlatMap(ModifyToks, xs[..i])|
    {
      ItemAt(ModifyToks, w.doc, old(w.pos), xs, i);
      ok := ModifyRequestSerialize(xs[i], w);
      if !ok { return false; }
    }
    assert xs[..|xs|] == xs;
    return true;
  }

  method BulkModifySerialize(b: Body, w: SerBuffer) returns (ok: bool)
    requires b.BulkModify? && w.Valid() && w.Ahead(BodyToks(b))
    modifies w, w.buf
    ensures w.Appended(ok, |BodyToks(b)|)
  {
    hide Lit, Enc, SerBuffer.Valid, SerBuffer.Intact, ModifyToks, FlatMap, At;
    AtSplit(w.doc, w.pos, BulkHead(2, "batchModify", "modifies", |b.edits|), FlatMap(ModifyToks, b.edits));
    ok := BulkHeadSerialize(2, "batchModify", "modifies", |b.edits|, w);
    if !ok { return false; }
    ok := EditsSerialize(b.edits, w);
  }

  method CancelsSerialize(xs: Batch<CancelRequest>, w: SerBuffer) returns (ok: bool)
    requires w.Valid() && w.Ahead(FlatMap(CancelToks, xs))
    modifies w, w.buf
    ensures w.Appended(ok, |FlatMap(CancelToks, xs)|)
  {
    hide Enc, SerBuffer.Intact, CancelToks;
    for i := 0 to |xs|
      invariant w.Valid() && w.pos == old(w.pos) + |FlatMap(CancelToks, xs[..i])|
    {
      ItemAt(CancelToks, w.doc, old(w.pos), xs, i);
      ok := CancelRequestSerialize(xs[i], w);
      if !ok { return false; }
    }
    assert xs[..|xs|] == xs;
    return true;
  }

  method BulkCancelSerialize(b: Body, w: SerBuffer) returns (ok: bool)
    requires b.BulkCancel? && w.Valid() && w.Ahead(BodyToks(b))
    modifies w, w.buf
    ensures w.Appended(ok, |BodyToks(b)|)
  {
    hide Lit, Enc, SerBuffer.Valid, SerBuffer.Intact, CancelToks, FlatMap, At;
    AtSplit(w.doc, w.pos, BulkHead(2, "cancel", "cancels", |b.cancels|), FlatMap(CancelToks, b.cancels));
    ok := BulkHeadSerialize(2, "cancel", "cancels", |b.cancels|, w);
    if !ok { return false; }
    ok := CancelsSerialize(b.cancels, w);
  }

  /** The nine tokens of a flat record: its header, its type and three more pairs. */
  lemma RecordPieces(ts: seq<Token>, i: nat, us: seq<Token>)
    requires |us| == 9 && At(ts, i, us)
    ensures i + 9 <= |ts| && ts[i] == us[0] && ts[i + 1] == us[1] && ts[i + 2] == us[2]
    ensures At(ts, i + 3, [us[3], us[4]]) && At(ts, i + 5, [us[5], us[6]]) && At(ts, i + 7, [us[7], us[8]])
  {
    AtIndex(ts, i, us);
    assert ts[i + 0] == us[0];
    AtSlice(ts, i, us, 3);
    AtSlice(ts, i, us, 5);
    AtSlice(ts, i, us, 7);
  }

  method UpdateLeverageSerialize(b: Body, w: SerBuffer) returns (ok: bool)
    requires b.UpdateLeverage? && w.Valid() && w.Ahead(BodyToks(b))
    modifies w, w.buf
    ensures w.Appended(ok, |BodyToks(b)|)
  {
    hide Lit, Enc, SerBuffer.Valid, SerBuffer.Intact;
    RecordPieces(w.doc, w.pos, BodyToks(b));
    ok := w.WriteMap(4);
    if !ok { return false; }
    ok := w.WriteLit("type");
    if !ok { return false; }
    ok := w.WriteLit("updateLeverage");
    if !ok { return false; }
    ok := WriteIntPair("asset", b.asset, w);
    if !ok { return false; }
    ok := WriteBoolPair("isCross", b.isCross, w);
    if !ok { return false; }
    ok := WriteIntPair("leverage", b.leverage, w);
  }

  method UpdateIsolatedMarginSerialize(b: Body, w: SerBuffer) returns (ok: bool)
    requires b.UpdateIsolatedMargin? && w.Valid() && w.Ahead(BodyToks(b))
    modifies w, w.buf
    ensures w.Appended(ok, |BodyToks(b)|)
  {
    hide Lit, Enc, SerBuffer.Valid, SerBuffer.Intact;
    RecordPieces(w.doc, w.pos, BodyToks(b));
    ok := w.WriteMap(4);
    if !ok { return false; }
    ok := w.WriteLit("type");
    if !ok { return false; }
    ok := w.WriteLit("updateIsolatedMargin");
    if !ok { return false; }
    ok := WriteIntPair("asset", b.marginAsset, w);
    if !ok { return false; }
    ok := WriteBoolPair("isBuy", b.marginIsBuy, w);
    if !ok { return false; }
    ok := WriteIntPair("ntli", b.ntli, w);
  }

  method BodySerialize(b: Body, w: SerBuffer) returns (ok: bool)
    requires Serializable(b) && w.Valid() && w.Ahead(BodyToks(b))
    modifies w, w.buf
    ensures w.Appended(ok, |BodyToks(b)|)
  {
    hide BodyToks, SerBuffer.Valid, SerBuffer.Intact;
    match b
    case BulkOrder(_, _, _) => ok := BulkOrderSerialize(b, w);
    case BulkModify(_) => ok := BulkModifySerialize(b, w);
    case BulkCancel(_) => ok := BulkCancelSerialize(b, w);
    case UpdateLeverage(_, _, _) => ok := UpdateLeverageSerialize(b, w);
    case UpdateIsolatedMargin(_, _, _) => ok := UpdateIsolatedMarginSerialize(b, w);
  }

  /**
   action_serialize, from any starting offset: it succeeds exactly when the action is serializable and its
   whole encoding fits, and then the buffer holds what it held before followed by the encoding; when it
   fails, what the buffer held before is still there.
   */
  method ActionSerialize(b: Body, raw: array<byte>, start: nat) returns (ok: bool, end: nat)
    requires start <= raw.Length
    modifies raw
    ensures ok <==> Serializable(b) && start + |BodyBytes(b)| <= raw.Length
    ensures ok ==> end <= raw.Length && raw[..end] == old(raw[..start]) + BodyBytes(b)
    ensures raw[..start] == old(raw[..start])
  {
    hide BodyToks;
    if !Serializable(b) {
      return false, start;
    }
    var w := new SerBuffer(raw, start, BodyToks(b));
    assert w.doc[..0] == [];
    AtWhole(BodyToks(b));
    ok := BodySerialize(b, w);
    end := w.offset;
    if ok {
      assert w.doc[..w.pos] == w.doc;
    }
  }
}
