/** The bulk parsers over their slots and the one sub-context that all repetitions of a field share. */
module BulkParsers {
  import opened Bytes
  import opened Model
  import opened Tlv
  import opened Parsers

  /** The structure of one request: its fields, the wiped context, and the final checks. */
  datatype Shape<!D, X> = Shape(spec: Spec<D>, blank: D, finish: D -> Option<X>)

  function Parse<D, X>(shape: Shape<D, X>, v: seq<byte>): Option<X> {
    var d :- RunTlv(shape.spec, v, {}, shape.blank);
    shape.finish(d)
  }

  class RequestList<D, X> {
    const shape: Shape<D, X>
    const slots: array<X>
    var count: nat
    var draft: D
    var received: set<nat>

    ghost predicate Valid()
      reads this
    {
      slots.Length == BULK_MAX_SIZE && count <= BULK_MAX_SIZE
    }

    ghost function Value(): (r: Batch<X>)
      requires Valid()
      reads this, slots
      ensures |r| == count
    {
      slots[..count]
    }

    constructor (s: Shape<D, X>, filler: X)
      ensures Valid() && Value() == [] && shape == s && fresh(slots)
    {
      shape := s;
      slots := new X[BULK_MAX_SIZE](_ => filler);
      count, draft, received := 0, s.blank, {};
    }

    /** The shared parser, filling the sub-context in place. */
    method Fill(v: seq<byte>) returns (ok: bool)
      modifies this`draft, this`received
      ensures ok == RunTlv(shape.spec, v, old(received), old(draft)).Some?
      ensures ok ==> draft == RunTlv(shape.spec, v, old(received), old(draft)).value
    {
      var rest := v;
      while rest != []
        invariant RunTlv(shape.spec, v, old(received), old(draft)) == RunTlv(shape.spec, rest, received, draft)
        decreases |rest|
      {
        var field := ReadField(rest);
        if field.None? || !Admits(shape.spec, received, field.value.0.tag) {
          return false;
        }
        var next := shape.spec.handle(field.value.0, draft);
        if next.None? {
          return false;
        }
        rest, received, draft := field.value.1, received + {field.value.0.tag}, next.value;
      }
      return true;
    }

    /**
     handle_order, handle_modify_request and handle_cancel_request: whatever an earlier field left in the
     sub-context, the field is parsed on its own and appended, unless five requests are there already.
     */
    method Handle(v: seq<byte>) returns (ok: bool)
      requires Valid()
      modifies this`draft, this`received, this`count, slots
      ensures Valid()
      ensures ok <==> |old(Value())| < BULK_MAX_SIZE && Parse(shape, v).Some?
      ensures Value() == if ok then old(Value()) + [Parse(shape, v).value] else old(Value())
    {
      if count >= BULK_MAX_SIZE {
        return false;
      }
      draft, received := shape.blank, {};
      ok := Fill(v);
      if !ok { return; }
      var request := shape.finish(draft);
      if request.None? {
        return false;
      }
      slots[count] := request.value;
      count := count + 1;
    }
  }

  // ---------------------------------------------------------------- the three bulk actions

  function OrderShape(metaAsset: u32): Shape<OrderDraft, OrderRequest> {
    Shape(ORDER_SPEC, NO_ORDER, d => FinishOrder(d, metaAsset))
  }

  function ModifyShape(metaAsset: u32): Shape<ModifyDraft, ModifyRequest> {
    Shape(MODIFY_SPEC, ModifyDraft(metaAsset, None, None), FinishModify)
  }

  function CancelShape(metaAsset: u32): Shape<CancelDraft, CancelRequest> {
    Shape(CANCEL_SPEC, CancelDraft(None, None), d => FinishCancel(d, metaAsset))
  }

  lemma ShapesParse(v: seq<byte>, metaAsset: u32)
    ensures Parse(OrderShape(metaAsset), v) == ParseOrder(v, metaAsset)
    ensures Parse(ModifyShape(metaAsset), v) == ParseModify(v, metaAsset)
    ensures Parse(CancelShape(metaAsset), v) == ParseCancel(v, metaAsset)
  {
    hide RunTlv;
  }

  const SOME_ORDER := OrderRequest(0, false, [48], [48], false, Limit(Alo), None)

  /** parse_bulk_order */
  method ParseBulkOrderPayload(payload: seq<byte>, metaAsset: u32) returns (r: Option<Body>)
    ensures r == ParseBulkOrder(payload, metaAsset)
  {
    hide ParseOrder, ParseBuilder, ReadField, GetUint;
    var list := new RequestList(OrderShape(metaAsset), SOME_ORDER);
    var grouping: Option<Grouping>, builder: Option<BuilderInfo> := None, None;
    var rest, received: set<nat> := payload, {};
    while rest != []
      invariant list.Valid() && list.shape == OrderShape(metaAsset)
      invariant fresh(list) && fresh(list.slots)
      invariant RunTlv(BULK_ORDER_SPEC, payload, {}, BulkOrderDraft(metaAsset, [], None, None))
                == RunTlv(BULK_ORDER_SPEC, rest, received, BulkOrderDraft(metaAsset, list.Value(), grouping, builder))
      decreases |rest|
    {
      var field := ReadField(rest);
      if field.None? || !Admits(BULK_ORDER_SPEC, received, field.value.0.tag) {
        return None;
      }
      var f := field.value.0;
      match f.tag {
        case 0xdd =>
          ShapesParse(f.value, metaAsset);
          var ok := list.Handle(f.value);
          if !ok { return None; }
        case 0xea =>
          var code := GetCode(f.value);
          if code.None? { return None; }
          grouping := GroupingOf(code.value);
          if grouping.None? { return None; }
        case _ =>
          builder := ParseBuilder(f.value);
          if builder.None? { return None; }
      }
      rest, received := field.value.1, received + {f.tag};
    }
    if list.count == 0 || grouping.None? {
      return None;
    }
    return Some(BulkOrder(list.slots[..list.count], grouping.value, builder));
  }

  /** parse_bulk_modify */
  method ParseBulkModifyPayload(payload: seq<byte>, metaAsset: u32) returns (r: Option<Body>)
    ensures r == ParseBulkModify(payload, metaAsset)
  {
    hide ParseModify, ReadField;
    var list := new RequestList(ModifyShape(metaAsset), ModifyRequest(0, SOME_ORDER));
    var rest := payload;
    var received: set<nat> := {};
    while rest != []
      invariant list.Valid() && list.shape == ModifyShape(metaAsset)
      invariant fresh(list) && fresh(list.slots)
      invariant RunTlv(BULK_MODIFY_SPEC, payload, {}, BulkModifyDraft(metaAsset, []))
                == RunTlv(BULK_MODIFY_SPEC, rest, received, BulkModifyDraft(metaAsset, list.Value()))
      decreases |rest|
    {
      var field := ReadField(rest);
      if field.None? || !Admits(BULK_MODIFY_SPEC, received, field.value.0.tag) {
        return None;
      }
      ShapesParse(field.value.0.value, metaAsset);
      var ok := list.Handle(field.value.0.value);
      if !ok { return None; }
      rest, received := field.value.1, received + {field.value.0.tag};
    }
    if list.count == 0 {
      return None;
    }
    return Some(BulkModify(list.slots[..list.count]));
  }

  /** parse_bulk_cancel */
  method ParseBulkCancelPayload(payload: seq<byte>, metaAsset: u32) returns (r: Option<Body>)
    ensures r == ParseBulkCancel(payload, metaAsset)
  {
    hide ParseCancel, ReadField;
    var list := new RequestList(CancelShape(metaAsset), CancelRequest(0, 0));
    var rest := payload;
    var received: set<nat> := {};
    while rest != []
      invariant list.Valid() && list.shape == CancelShape(metaAsset)
      invariant fresh(list) && fresh(list.slots)
      invariant RunTlv(BULK_CANCEL_SPEC, payload, {}, BulkCancelDraft(metaAsset, []))
                == RunTlv(BULK_CANCEL_SPEC, rest, received, BulkCancelDraft(metaAsset, list.Value()))
      decreases |rest|
    {
      var field := ReadField(rest);
      if field.None? || !Admits(BULK_CANCEL_SPEC, received, field.value.0.tag) {
        return None;
      }
      ShapesParse(field.value.0.value, metaAsset);
      var ok := list.Handle(field.value.0.value);
      if !ok { return None; }
      rest, received := field.value.1, received + {field.value.0.tag};
    }
    if list.count == 0 {
      return None;
    }
    return Some(BulkCancel(list.slots[..list.count]));
  }

  /** Without the wipe, no order that the client prints after the first would parse: its type tag is already received. */
  lemma StaleContextRefuses(o: OrderRequest, received: set<nat>, left: OrderDraft)
    requires 0xe0 in received
    ensures RunTlv(ORDER_SPEC, PrintOrder(o), received, left) == None
  {
    hide PrintField, PrintCode, PrintU32, PrintFlag, PrintKind, ReadField;
    var items := OrderItems(o);
    var head := items[0];
    var tail := PrintItems(items[1..]);
    assert items == [head] + items[1..];
    FlatMapCons(PrintItem, head, items[1..]);
    ReadFieldInverts(head.0, head.1, tail);
    PrintFieldNonEmpty(head);
    assert PrintOrder(o) == PrintField(head.0, head.1) + tail;
  }

  /** The tags of the fields that every order has. */
  const ORDER_TAGS: set<nat> := {0xe0, 0xd1, 0xe2, 0xe3, 0xe4, 0xe5, 0xd7}

  /** v holds one client order id field and nothing else. */
  predicate IsCloidField(v: seq<byte>) {
    match ReadField(v)
    case None => false
    case Some((f, rest)) => rest == [] && f.tag == 0xee && |f.value| == CLOID_BYTES
  }

  lemma NothingMoreIsTaken(v: seq<byte>, received: set<nat>, left: OrderDraft)
    requires ORDER_TAGS + {0xee} <= received && v != []
    ensures RunTlv(ORDER_SPEC, v, received, left) == None
  {
    hide ReadField, HandleOrder;
  }

  lemma TakenOnlyForId(f: Field, received: set<nat>)
    requires ORDER_TAGS <= received && Admits(ORDER_SPEC, received, f.tag)
    ensures f.tag == 0xee && 0xee !in received
  {
  }

  /**
   Exactly what a context left by an order would still take: nothing, or a first client order id. Either would finish
   as a second copy of that order, up to its id.
   */
  lemma StaleContextExact(v: seq<byte>, received: set<nat>, left: OrderDraft)
    requires ORDER_TAGS <= received
    ensures RunTlv(ORDER_SPEC, v, received, left) ==
            if v == [] then Some(left)
            else if 0xee !in received && IsCloidField(v) then Some(left.(cloid := Some(ReadField(v).value.0.value)))
            else None
  {
    hide ReadField, HandleKind, GetUint, IsCString, Admits;
    if v != [] && ReadField(v).Some? {
      var (f, rest) := ReadField(v).value;
      if Admits(ORDER_SPEC, received, f.tag) {
        TakenOnlyForId(f, received);
        if HandleOrder(f, left).Some? && rest != [] {
          NothingMoreIsTaken(rest, received + {f.tag}, HandleOrder(f, left).value);
        }
      } else if f.tag == 0xee {
        assert 0xee in received by { IdIsTakenOnce(received); }
      }
    }
  }

  lemma IdIsTakenOnce(received: set<nat>)
    ensures Admits(ORDER_SPEC, received, 0xee) <==> 0xee !in received
  {
  }

  /** The wiped context refuses both. */
  lemma WipedContextRefuses(v: seq<byte>, metaAsset: u32)
    requires v == [] || IsCloidField(v)
    ensures ParseOrder(v, metaAsset) == None
  {
    hide ReadField, HandleKind, GetUint, IsCString;
    if v != [] {
      var (f, rest) := ReadField(v).value;
      var d := NO_ORDER.(cloid := Some(f.value));
      assert HandleOrder(f, NO_ORDER) == Some(d) && RunTlv(ORDER_SPEC, [], {} + {f.tag}, d) == Some(d);
    }
  }
}
