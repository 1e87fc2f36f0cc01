/** The structures of the wire format: how the device parses each one and how the client prints it. */
module Parsers {
  import opened Bytes
  import opened Model
  import opened Tlv

  // ---------------------------------------------------------------- codes and sizes

  function TifOf(n: nat): Option<Tif> {
    match n case 0 => Some(Alo) case 1 => Some(Ioc) case 2 => Some(Gtc) case _ => None
  }

  function TifCode(t: Tif): byte {
    match t case Alo => 0 case Ioc => 1 case Gtc => 2
  }

  function TpslOf(n: nat): Option<Tpsl> {
    match n case 0 => Some(TakeProfit) case 1 => Some(StopLoss) case _ => None
  }

  function TpslCode(t: Tpsl): byte {
    match t case TakeProfit => 0 case StopLoss => 1
  }

  function GroupingOf(n: nat): Option<Grouping> {
    match n case 0 => Some(Na) case 1 => Some(NormalTpsl) case 2 => Some(PositionTpsl) case _ => None
  }

  function GroupingCode(g: Grouping): byte {
    match g case Na => 0 case NormalTpsl => 1 case PositionTpsl => 2
  }

  function GetCode(v: seq<byte>): Option<nat> { GetUint(v, 0xff) }

  function GetText(v: seq<byte>, max: nat): (r: Option<seq<byte>>)
    ensures r.Some? ==> IsCString(r.value, max)
  {
    if IsCString(v, max) then Some(v) else None
  }

  function GetBuffer(v: seq<byte>, size: nat): (r: Option<seq<byte>>)
    ensures r.Some? ==> |r.value| == size
  {
    if |v| == size then Some(v) else None
  }

  function PrintCode(c: byte): (r: seq<byte>)
    ensures |r| == 1
  {
    MinBE(c)
  }

  function PrintU32(n: u32): (r: seq<byte>)
    ensures |r| <= 4
  {
    MinLenIsShortest(n, 4);
    Pow256Values();
    MinBE(n)
  }

  function PrintU64(n: u64): (r: seq<byte>)
    ensures |r| <= 8
  {
    MinLenIsShortest(n, 8);
    Pow256Values();
    MinBE(n)
  }

  function PrintFlag(b: bool): (r: seq<byte>)
    ensures |r| == 1
  {
    PrintCode(if b then 1 else 0)
  }

  lemma GetsInvert()
    ensures forall c: byte {:trigger PrintCode(c)} :: GetCode(PrintCode(c)) == Some(c)
    ensures forall n: u32 {:trigger PrintU32(n)} :: GetU32(PrintU32(n)) == Some(n)
    ensures forall n: u64 {:trigger PrintU64(n)} :: GetU64(PrintU64(n)) == Some(n)
    ensures forall b: bool {:trigger PrintFlag(b)} :: GetBool(PrintFlag(b)) == Some(b)
  {
    hide MinBE, FromBE, GetUint;
    forall c: byte ensures GetCode(PrintCode(c)) == Some(c) { GetUintInverts(c, 0xff); }
    forall n: u32 ensures GetU32(PrintU32(n)) == Some(n) { GetUintInverts(n, 0xffff_ffff); }
    forall n: u64 ensures GetU64(PrintU64(n)) == Some(n) { GetUintInverts(n, 0xffff_ffff_ffff_ffff); }
    forall b: bool ensures GetBool(PrintFlag(b)) == Some(b) { GetUintInverts(if b then 1 else 0, 1); }
  }

  /** A one- or two-byte tag, a length of one to three bytes, and the value. */
  lemma PrintItemSize(i: Item)
    requires i.0 < 0x100
    ensures |i.1| < 0x80 ==> |PrintItem(i)| <= 3 + |i.1|
    ensures |i.1| < 0x100 ==> |PrintItem(i)| <= 4 + |i.1|
    ensures |i.1| < 0x1_0000 ==> |PrintItem(i)| <= 5 + |i.1|
  {
    hide BE;
    Pow256Values();
    MinLenIsShortest(i.0, 1);
    MinLenIsShortest(|i.1|, 1);
    MinLenIsShortest(|i.1|, 2);
  }

  lemma PrintItemSizes()
    ensures forall i: Item {:trigger PrintItem(i)} :: i.0 < 0x100 ==>
              (|i.1| < 0x80 ==> |PrintItem(i)| <= 3 + |i.1|) && (|i.1| < 0x100 ==> |PrintItem(i)| <= 4 + |i.1|)
              && (|i.1| < 0x1_0000 ==> |PrintItem(i)| <= 5 + |i.1|)
  {
    hide PrintItem;
    forall i: Item | i.0 < 0x100
      ensures (|i.1| < 0x80 ==> |PrintItem(i)| <= 3 + |i.1|) && (|i.1| < 0x100 ==> |PrintItem(i)| <= 4 + |i.1|)
              && (|i.1| < 0x1_0000 ==> |PrintItem(i)| <= 5 + |i.1|)
    {
      PrintItemSize(i);
    }
  }

  /** totals bounds the printed size of each prefix of items. */
  lemma PrintItemsSize(items: seq<Item>, totals: seq<nat>)
    requires |totals| == |items| + 1
    requires forall i :: 0 <= i < |items| ==> items[i].0 < 0x100 && |items[i].1| < 0x1_0000
    requires forall i :: 0 <= i < |items| ==>
               totals[i] + |items[i].1| + (if |items[i].1| < 0x80 then 3 else if |items[i].1| < 0x100 then 4 else 5) <= totals[i + 1]
    ensures |PrintItems(items)| <= totals[|items|]
  {
    hide PrintItem, FlatMap;
    PrintItemSizes();
    FlatMapBound(PrintItem, items, totals);
  }

  // ---------------------------------------------------------------- limit and trigger

  datatype LimitDraft = LimitDraft(tif: Option<Tif>)

  function HandleLimit(f: Field, d: LimitDraft): Option<LimitDraft> {
    var code :- GetCode(f.value);
    var tif :- TifOf(code);
    Some(d.(tif := Some(tif)))
  }

  const LIMIT_SPEC := Spec(map[0xe6 := true], HandleLimit)

  function ParseLimit(bs: seq<byte>): Option<OrderKind> {
    var d :- RunTlv(LIMIT_SPEC, bs, {}, LimitDraft(None));
    var tif :- d.tif;
    Some(Limit(tif))
  }

  datatype TriggerDraft = TriggerDraft(isMarket: Option<bool>, triggerPx: Option<Numeric>, tpsl: Option<Tpsl>)

  function HandleTrigger(f: Field, d: TriggerDraft): Option<TriggerDraft> {
    match f.tag
    case 0xe7 => var b :- GetBool(f.value); Some(d.(isMarket := Some(b)))
    case 0xe8 => var px :- GetText(f.value, NUMERIC_STRING_LENGTH); Some(d.(triggerPx := Some(px)))
    case _ =>
      var code :- GetCode(f.value);
      var tpsl :- TpslOf(code);
      Some(d.(tpsl := Some(tpsl)))
  }

  const TRIGGER_SPEC := Spec(map[0xe7 := true, 0xe8 := true, 0xe9 := true], HandleTrigger)

  function ParseTrigger(bs: seq<byte>): Option<OrderKind> {
    var d :- RunTlv(TRIGGER_SPEC, bs, {}, TriggerDraft(None, None, None));
    var isMarket :- d.isMarket;
    var triggerPx :- d.triggerPx;
    var tpsl :- d.tpsl;
    Some(Trigger(isMarket, triggerPx, tpsl))
  }

  function KindItems(k: OrderKind): seq<Item> {
    match k
    case Limit(tif) => [(0xe6, PrintCode(TifCode(tif)))]
    case Trigger(isMarket, px, tpsl) => [(0xe7, PrintFlag(isMarket)), (0xe8, px), (0xe9, PrintCode(TpslCode(tpsl)))]
  }

  /** order_request.py: Limit.serialize and Trigger.serialize */
  function PrintKind(k: OrderKind): (r: seq<byte>)
    ensures |r| <= 32
  {
    PrintItemsSize(KindItems(k), if k.Limit? then [0, 4] else [0, 4, 28, 32]);
    PrintItems(KindItems(k))
  }

  lemma LimitRoundTrip(tif: Tif)
    ensures ParseLimit(PrintKind(Limit(tif))) == Some(Limit(tif))
  {
    hide PrintField, GetUint, PrintCode;
    GetsInvert();
    RunPrinted(LIMIT_SPEC, KindItems(Limit(tif)), [LimitDraft(None), LimitDraft(Some(tif))]);
  }

  lemma TriggerRoundTrip(k: OrderKind)
    requires k.Trigger?
    ensures ParseTrigger(PrintKind(k)) == Some(k)
  {
    hide PrintField, GetUint, PrintCode, PrintFlag;
    GetsInvert();
    var d0 := TriggerDraft(None, None, None);
    var d1 := d0.(isMarket := Some(k.isMarket));
    var d2 := d1.(triggerPx := Some(k.triggerPx));
    var d3 := d2.(tpsl := Some(k.tpsl));
    RunPrinted(TRIGGER_SPEC, KindItems(k), [d0, d1, d2, d3]);
  }

  // ---------------------------------------------------------------- order request

  datatype OrderType = LimitType | TriggerType

  function OrderTypeOf(n: nat): Option<OrderType> {
    match n case 0 => Some(LimitType) case 1 => Some(TriggerType) case _ => None
  }

  function KindCode(k: OrderKind): byte { if k.Limit? then 0 else 1 }

  function KindType(k: OrderKind): OrderType { if k.Limit? then LimitType else TriggerType }

  datatype OrderDraft = OrderDraft(
    orderType: Option<OrderType>,
    asset: Option<u32>,
    isBuy: Option<bool>,
    limitPx: Option<Numeric>,
    sz: Option<Numeric>,
    reduceOnly: Option<bool>,
    kind: Option<OrderKind>,
    cloid: Option<Cloid>)

  const NO_ORDER := OrderDraft(None, None, None, None, None, None, None, None)

  /** handle_order: the type must have come before, and says how to read the value. */
  function HandleKind(v: seq<byte>, orderType: Option<OrderType>): Option<OrderKind> {
    var t :- orderType;
    if t == LimitType then ParseLimit(v) else ParseTrigger(v)
  }

  function HandleOrder(f: Field, d: OrderDraft): Option<OrderDraft> {
    match f.tag
    case 0xe0 => var code :- GetCode(f.value); var t :- OrderTypeOf(code); Some(d.(orderType := Some(t)))
    case 0xd1 => var n :- GetU32(f.value); Some(d.(asset := Some(n)))
    case 0xe2 => var b :- GetBool(f.value); Some(d.(isBuy := Some(b)))
    case 0xe3 => var px :- GetText(f.value, NUMERIC_STRING_LENGTH); Some(d.(limitPx := Some(px)))
    case 0xe4 => var sz :- GetText(f.value, NUMERIC_STRING_LENGTH); Some(d.(sz := Some(sz)))
    case 0xe5 => var b :- GetBool(f.value); Some(d.(reduceOnly := Some(b)))
    case 0xd7 => var k :- HandleKind(f.value, d.orderType); Some(d.(kind := Some(k)))
    case _ => var id :- GetBuffer(f.value, CLOID_BYTES); Some(d.(cloid := Some(id)))
  }

  const ORDER_SPEC := Spec(map[0xe0 := true, 0xd1 := true, 0xe2 := true, 0xe3 := true, 0xe4 := true, 0xe5 := true,
                               0xd7 := true, 0xee := true], HandleOrder)

  /** verify_order_request: every field but the client order id, and the asset of the metadata. */
  function FinishOrder(d: OrderDraft, metaAsset: u32): Option<OrderRequest> {
    if d.orderType.None? then None else
    var asset :- d.asset;
    var isBuy :- d.isBuy;
    var limitPx :- d.limitPx;
    var sz :- d.sz;
    var reduceOnly :- d.reduceOnly;
    var kind :- d.kind;
    if asset != metaAsset then None
    else Some(OrderRequest(asset, isBuy, limitPx, sz, reduceOnly, kind, d.cloid))
  }

  function ParseOrder(bs: seq<byte>, metaAsset: u32): Option<OrderRequest> {
    var d :- RunTlv(ORDER_SPEC, bs, {}, NO_ORDER);
    FinishOrder(d, metaAsset)
  }

  function OrderItems(o: OrderRequest): seq<Item> {
    [(0xe0, PrintCode(KindCode(o.kind))), (0xd1, PrintU32(o.asset)), (0xe2, PrintFlag(o.isBuy)), (0xe3, o.limitPx),
     (0xe4, o.sz), (0xe5, PrintFlag(o.reduceOnly)), (0xd7, PrintKind(o.kind))]
    + if o.cloid.Some? then [(0xee, o.cloid.value)] else []
  }

  /** order_request.py: OrderRequest.serialize */
  function PrintOrder(o: OrderRequest): (r: seq<byte>)
    ensures |r| <= 121
  {
    OrderItemsSize(o);
    PrintItems(OrderItems(o))
  }

  lemma OrderItemsSize(o: OrderRequest)
    ensures |PrintItems(OrderItems(o))| <= 121
  {
    hide PrintCode, PrintU32, PrintFlag, PrintKind, PrintItems;
    PrintItemsSize(OrderItems(o), [0, 4, 11, 15, 39, 63, 67, 102] + if o.cloid.Some? then [121] else []);
  }

  lemma KindRoundTrip(k: OrderKind)
    ensures HandleKind(PrintKind(k), Some(KindType(k))) == Some(k)
  {
    hide ParseLimit, ParseTrigger, PrintKind;
    if k.Limit? {
      LimitRoundTrip(k.tif);
    } else {
      TriggerRoundTrip(k);
    }
  }

  function OrderDrafts(o: OrderRequest): seq<OrderDraft> {
    var d1 := NO_ORDER.(orderType := Some(KindType(o.kind)));
    var d2 := d1.(asset := Some(o.asset));
    var d3 := d2.(isBuy := Some(o.isBuy));
    var d4 := d3.(limitPx := Some(o.limitPx));
    var d5 := d4.(sz := Some(o.sz));
    var d6 := d5.(reduceOnly := Some(o.reduceOnly));
    var d7 := d6.(kind := Some(o.kind));
    [NO_ORDER, d1, d2, d3, d4, d5, d6, d7] + if o.cloid.Some? then [d7.(cloid := o.cloid)] else []
  }

  lemma OrderItemsHandled(o: OrderRequest)
    ensures Admissible(ORDER_SPEC, OrderItems(o)) && Handles(ORDER_SPEC, OrderItems(o), OrderDrafts(o))
  {
    hide PrintField, GetUint, PrintCode, PrintFlag, PrintU32, PrintKind, HandleKind;
    GetsInvert();
    KindRoundTrip(o.kind);
  }

  /** The client's bytes for an order parse back to that order, when the metadata names its asset. */
  lemma OrderPrintParse(o: OrderRequest)
    ensures ParseOrder(PrintOrder(o), o.asset) == Some(o)
  {
    OrderItemsHandled(o);
    RunPrinted(ORDER_SPEC, OrderItems(o), OrderDrafts(o));
  }

  predicate KindFollowsType(received: set<nat>, d: OrderDraft) {
    (0xe0 in received <==> d.orderType.Some?) &&
    (d.kind.Some? ==> d.orderType == Some(KindType(d.kind.value)))
  }

  lemma KindKeepsFollowing(received: set<nat>, d: OrderDraft, f: Field, next: OrderDraft)
    requires KindFollowsType(received, d) && Admits(ORDER_SPEC, received, f.tag) && HandleOrder(f, d) == Some(next)
    ensures KindFollowsType(received + {f.tag}, next)
  {
    hide RunTlv, GetUint, IsCString;
  }

  /**
   An order is read as the variant that its final type names: the type is unique and has to come first, so it
   cannot change under a value that is already read.
   */
  lemma OrderVariantMatchesType(bs: seq<byte>)
    ensures var r := RunTlv(ORDER_SPEC, bs, {}, NO_ORDER);
            r.Some? && r.value.kind.Some? ==> r.value.orderType == Some(KindType(r.value.kind.value))
  {
    hide RunTlv, HandleOrder, Admits;
    if RunTlv(ORDER_SPEC, bs, {}, NO_ORDER).Some? {
      forall rec: set<nat>, d, f: Field, next |
        KindFollowsType(rec, d) && Admits(ORDER_SPEC, rec, f.tag) && HandleOrder(f, d) == Some(next)
        ensures KindFollowsType(rec + {f.tag}, next)
      {
        KindKeepsFollowing(rec, d, f, next);
      }
      RunKeeps(ORDER_SPEC, KindFollowsType, bs, {}, NO_ORDER);
    }
  }

  // ---------------------------------------------------------------- builder, modify and cancel requests

  datatype BuilderDraft = BuilderDraft(builder: Option<Address>, fee: Option<u64>)

  function HandleBuilderInfo(f: Field, d: BuilderDraft): Option<BuilderDraft> {
    match f.tag
    case 0xd3 => var a :- GetBuffer(f.value, ADDRESS_LENGTH); Some(d.(builder := Some(a)))
    case _ => var n :- GetU64(f.value); Some(d.(fee := Some(n)))
  }

  const BUILDER_SPEC := Spec(map[0xd3 := true, 0xec := true], HandleBuilderInfo)

  function ParseBuilder(bs: seq<byte>): Option<BuilderInfo> {
    var d :- RunTlv(BUILDER_SPEC, bs, {}, BuilderDraft(None, None));
    var builder :- d.builder;
    var fee :- d.fee;
    Some(BuilderInfo(builder, fee))
  }

  function BuilderItems(b: BuilderInfo): seq<Item> {
    [(0xd3, b.builder), (0xec, PrintU64(b.fee))]
  }

  function PrintBuilder(b: BuilderInfo): (r: seq<byte>)
    ensures |r| <= 34
  {
    PrintItemsSize(BuilderItems(b), [0, 23, 34]);
    PrintItems(BuilderItems(b))
  }

  lemma BuilderPrintParse(b: BuilderInfo)
    ensures ParseBuilder(PrintBuilder(b)) == Some(b)
  {
    hide PrintField, GetUint, PrintU64;
    GetsInvert();
    var d1 := BuilderDraft(Some(b.builder), None);
    RunPrinted(BUILDER_SPEC, BuilderItems(b), [BuilderDraft(None, None), d1, d1.(fee := Some(b.fee))]);
  }

  datatype ModifyDraft = ModifyDraft(metaAsset: u32, order: Option<OrderRequest>, oid: Option<u64>)

  function HandleModify(f: Field, d: ModifyDraft): Option<ModifyDraft> {
    match f.tag
    case 0xdd => var o :- ParseOrder(f.value, d.metaAsset); Some(d.(order := Some(o)))
    case _ => var n :- GetU64(f.value); Some(d.(oid := Some(n)))
  }

  const MODIFY_SPEC := Spec(map[0xdd := true, 0xdc := true], HandleModify)

  function FinishModify(d: ModifyDraft): Option<ModifyRequest> {
    var order :- d.order;
    var oid :- d.oid;
    Some(ModifyRequest(oid, order))
  }

  function ParseModify(bs: seq<byte>, metaAsset: u32): Option<ModifyRequest> {
    var d :- RunTlv(MODIFY_SPEC, bs, {}, ModifyDraft(metaAsset, None, None));
    FinishModify(d)
  }

  function ModifyItems(m: ModifyRequest): seq<Item> {
    [(0xdd, PrintOrder(m.order)), (0xdc, PrintU64(m.oid))]
  }

  function PrintModify(m: ModifyRequest): (r: seq<byte>)
    ensures |r| <= 135
  {
    PrintItemsSize(ModifyItems(m), [0, 124, 135]);
    PrintItems(ModifyItems(m))
  }

  lemma ModifyPrintParse(m: ModifyRequest)
    ensures ParseModify(PrintModify(m), m.order.asset) == Some(m)
  {
    hide PrintField, GetUint, PrintU64, PrintOrder, ParseOrder;
    GetsInvert();
    OrderPrintParse(m.order);
    var d0 := ModifyDraft(m.order.asset, None, None);
    var d1 := d0.(order := Some(m.order));
    RunPrinted(MODIFY_SPEC, ModifyItems(m), [d0, d1, d1.(oid := Some(m.oid))]);
  }

  datatype CancelDraft = CancelDraft(asset: Option<u32>, oid: Option<u64>)

  function HandleCancel(f: Field, d: CancelDraft): Option<CancelDraft> {
    match f.tag
    case 0xd1 => var n :- GetU32(f.value); Some(d.(asset := Some(n)))
    case _ => var n :- GetU64(f.value); Some(d.(oid := Some(n)))
  }

  const CANCEL_SPEC := Spec(map[0xd1 := true, 0xdc := true], HandleCancel)

  function FinishCancel(d: CancelDraft, metaAsset: u32): Option<CancelRequest> {
    var asset :- d.asset;
    var oid :- d.oid;
    if asset != metaAsset then None else Some(CancelRequest(asset, oid))
  }

  function ParseCancel(bs: seq<byte>, metaAsset: u32): Option<CancelRequest> {
    var d :- RunTlv(CANCEL_SPEC, bs, {}, CancelDraft(None, None));
    FinishCancel(d, metaAsset)
  }

  function CancelItems(c: CancelRequest): seq<Item> {
    [(0xd1, PrintU32(c.asset)), (0xdc, PrintU64(c.oid))]
  }

  function PrintCancel(c: CancelRequest): (r: seq<byte>)
    ensures |r| <= 18
  {
    PrintItemsSize(CancelItems(c), [0, 7, 18]);
    PrintItems(CancelItems(c))
  }

  lemma CancelPrintParse(c: CancelRequest)
    ensures ParseCancel(PrintCancel(c), c.asset) == Some(c)
  {
    hide PrintField, GetUint, PrintU32, PrintU64;
    GetsInvert();
    var d1 := CancelDraft(Some(c.asset), None);
    RunPrinted(CANCEL_SPEC, CancelItems(c), [CancelDraft(None, None), d1, d1.(oid := Some(c.oid))]);
  }

  // ---------------------------------------------------------------- bulk actions

  datatype BulkOrderDraft = BulkOrderDraft(
    metaAsset: u32, orders: Batch<OrderRequest>, grouping: Option<Grouping>, builder: Option<BuilderInfo>)

  function HandleBulkOrder(f: Field, d: BulkOrderDraft): Option<BulkOrderDraft> {
    match f.tag
    case 0xdd =>
      if |d.orders| >= BULK_MAX_SIZE then None else
      var o :- ParseOrder(f.value, d.metaAsset);
      Some(d.(orders := d.orders + [o]))
    case 0xea => var code :- GetCode(f.value); var g :- GroupingOf(code); Some(d.(grouping := Some(g)))
    case _ => var b :- ParseBuilder(f.value); Some(d.(builder := Some(b)))
  }

  const BULK_ORDER_SPEC := Spec(map[0xdd := false, 0xea := true, 0xeb := true], HandleBulkOrder)

  function ParseBulkOrder(bs: seq<byte>, metaAsset: u32): Option<Body> {
    var d :- RunTlv(BULK_ORDER_SPEC, bs, {}, BulkOrderDraft(metaAsset, [], None, None));
    var grouping :- d.grouping;
    if d.orders == [] then None else Some(BulkOrder(d.orders, grouping, d.builder))
  }

  datatype BulkModifyDraft = BulkModifyDraft(metaAsset: u32, edits: Batch<ModifyRequest>)

  function HandleBulkModify(f: Field, d: BulkModifyDraft): Option<BulkModifyDraft> {
    if |d.edits| >= BULK_MAX_SIZE then None else
    var m :- ParseModify(f.value, d.metaAsset);
    Some(d.(edits := d.edits + [m]))
  }

  const BULK_MODIFY_SPEC := Spec(map[0xd8 := false], HandleBulkModify)

  function ParseBulkModify(bs: seq<byte>, metaAsset: u32): Option<Body> {
    var d :- RunTlv(BULK_MODIFY_SPEC, bs, {}, BulkModifyDraft(metaAsset, []));
    if d.edits == [] then None else Some(BulkModify(d.edits))
  }

  datatype BulkCancelDraft = BulkCancelDraft(metaAsset: u32, cancels: Batch<CancelRequest>)

  function HandleBulkCancel(f: Field, d: BulkCancelDraft): Option<BulkCancelDraft> {
    if |d.cancels| >= BULK_MAX_SIZE then None else
    var c :- ParseCancel(f.value, d.metaAsset);
    Some(d.(cancels := d.cancels + [c]))
  }

  const BULK_CANCEL_SPEC := Spec(map[0xd9 := false], HandleBulkCancel)

  function ParseBulkCancel(bs: seq<byte>, metaAsset: u32): Option<Body> {
    var d :- RunTlv(BULK_CANCEL_SPEC, bs, {}, BulkCancelDraft(metaAsset, []));
    if d.cancels == [] then None else Some(BulkCancel(d.cancels))
  }

  /** The values of the fields of bs that carry tag, in order. */
  function Repeated(bs: seq<byte>, tag: nat): seq<seq<byte>>
    decreases |bs|
  {
    if bs == [] then [] else
    match ReadField(bs)
    case None => []
    case Some((f, rest)) => (if f.tag == tag then [f.value] else []) + Repeated(rest, tag)
  }

  /** Handling f appends parse(value) if f carries tag, and nothing if it does not. */
  ghost predicate CollectsAt<S, X>(spec: Spec<S>, tag: nat, get: S -> seq<X>, parse: seq<byte> -> Option<X>,
                                   keeps: S -> bool, f: Field, s: S) {
    keeps(s) && f.tag in spec.tags && spec.handle(f, s).Some? ==>
      var next := spec.handle(f, s).value;
      keeps(next) &&
      if f.tag == tag then parse(f.value).Some? && get(next) == get(s) + [parse(f.value).value]
      else get(next) == get(s)
  }

  ghost predicate Collects<S(!new), X>(spec: Spec<S>, tag: nat, get: S -> seq<X>, parse: seq<byte> -> Option<X>,
                                       keeps: S -> bool) {
    forall f: Field, s: S :: CollectsAt(spec, tag, get, parse, keeps, f, s)
  }

  /** after is before followed by the parses of vs. */
  ghost predicate Extends<X>(parse: seq<byte> -> Option<X>, before: seq<X>, vs: seq<seq<byte>>, after: seq<X>) {
    |after| == |before| + |vs| && before <= after &&
    forall i :: 0 <= i < |vs| ==> parse(vs[i]) == Some(after[|before| + i])
  }

  lemma ExtendsCons<X>(parse: seq<byte> -> Option<X>, before: seq<X>, x: X, v: seq<byte>, vs: seq<seq<byte>>,
                       after: seq<X>)
    requires parse(v) == Some(x) && Extends(parse, before + [x], vs, after)
    ensures Extends(parse, before, [v] + vs, after)
  {
    assert after[|before|] == (before + [x])[|before|];
  }

  lemma {:induction false} RunCollects<S(!new), X>(spec: Spec<S>, tag: nat, get: S -> seq<X>,
      parse: seq<byte> -> Option<X>, keeps: S -> bool, bs: seq<byte>, received: set<nat>, out: S)
    requires Collects(spec, tag, get, parse, keeps) && keeps(out)
    requires RunTlv(spec, bs, received, out).Some?
    ensures Extends(parse, get(out), Repeated(bs, tag), get(RunTlv(spec, bs, received, out).value))
    decreases |bs|
  {
    hide ReadField, Extends;
    if bs == [] {
      NothingCollected(parse, get(out));
    } else {
      var (f, rest) := ReadField(bs).value;
      assert CollectsAt(spec, tag, get, parse, keeps, f, out);
      var next := spec.handle(f, out).value;
      RunCollects(spec, tag, get, parse, keeps, rest, received + {f.tag}, next);
      var after := get(RunTlv(spec, bs, received, out).value);
      if f.tag == tag {
        ExtendsCons(parse, get(out), parse(f.value).value, f.value, Repeated(rest, tag), after);
      } else {
        assert [] + Repeated(rest, tag) == Repeated(rest, tag);
      }
    }
  }

  lemma NothingCollected<X>(parse: seq<byte> -> Option<X>, xs: seq<X>)
    ensures Extends(parse, xs, [], xs)
  {
  }

  /** The stored requests are the independent parses of the repeated fields, in order: 1 to 5 of them. */
  ghost predicate IsMapOf<X>(xs: seq<X>, parse: seq<byte> -> Option<X>, vs: seq<seq<byte>>) {
    1 <= |xs| == |vs| <= 5 && forall i :: 0 <= i < |vs| ==> parse(vs[i]) == Some(xs[i])
  }

  lemma IsMapFromExtends<X>(parse: seq<byte> -> Option<X>, vs: seq<seq<byte>>, xs: seq<X>)
    requires Extends(parse, [], vs, xs) && 1 <= |xs| <= BULK_MAX_SIZE
    ensures IsMapOf(xs, parse, vs)
  {
  }

  lemma BulkOrderIsMap(bs: seq<byte>, metaAsset: u32)
    requires ParseBulkOrder(bs, metaAsset).Some?
    ensures IsMapOf(ParseBulkOrder(bs, metaAsset).value.orders, v => ParseOrder(v, metaAsset), Repeated(bs, 0xdd))
  {
    hide ParseOrder, ParseBuilder, GetUint, Repeated, RunTlv, Extends, IsMapOf;
    var get, keeps := (d: BulkOrderDraft) => d.orders, (d: BulkOrderDraft) => d.metaAsset == metaAsset;
    var parse := v => ParseOrder(v, metaAsset);
    forall f, d ensures CollectsAt(BULK_ORDER_SPEC, 0xdd, get, parse, keeps, f, d) {
    }
    RunCollects(BULK_ORDER_SPEC, 0xdd, get, parse, keeps, bs, {}, BulkOrderDraft(metaAsset, [], None, None));
    IsMapFromExtends(parse, Repeated(bs, 0xdd), ParseBulkOrder(bs, metaAsset).value.orders);
  }

  lemma BulkModifyIsMap(bs: seq<byte>, metaAsset: u32)
    requires ParseBulkModify(bs, metaAsset).Some?
    ensures IsMapOf(ParseBulkModify(bs, metaAsset).value.edits, v => ParseModify(v, metaAsset), Repeated(bs, 0xd8))
  {
    hide ParseModify, Repeated, RunTlv, Extends, IsMapOf;
    var get, keeps := (d: BulkModifyDraft) => d.edits, (d: BulkModifyDraft) => d.metaAsset == metaAsset;
    var parse := v => ParseModify(v, metaAsset);
    forall f, d ensures CollectsAt(BULK_MODIFY_SPEC, 0xd8, get, parse, keeps, f, d) {
    }
    RunCollects(BULK_MODIFY_SPEC, 0xd8, get, parse, keeps, bs, {}, BulkModifyDraft(metaAsset, []));
    IsMapFromExtends(parse, Repeated(bs, 0xd8), ParseBulkModify(bs, metaAsset).value.edits);
  }

  lemma BulkCancelIsMap(bs: seq<byte>, metaAsset: u32)
    requires ParseBulkCancel(bs, metaAsset).Some?
    ensures IsMapOf(ParseBulkCancel(bs, metaAsset).value.cancels, v => ParseCancel(v, metaAsset), Repeated(bs, 0xd9))
  {
    hide ParseCancel, Repeated, RunTlv, Extends, IsMapOf;
    var get, keeps := (d: BulkCancelDraft) => d.cancels, (d: BulkCancelDraft) => d.metaAsset == metaAsset;
    var parse := v => ParseCancel(v, metaAsset);
    forall f, d ensures CollectsAt(BULK_CANCEL_SPEC, 0xd9, get, parse, keeps, f, d) {
    }
    RunCollects(BULK_CANCEL_SPEC, 0xd9, get, parse, keeps, bs, {}, BulkCancelDraft(metaAsset, []));
    IsMapFromExtends(parse, Repeated(bs, 0xd9), ParseBulkCancel(bs, metaAsset).value.cancels);
  }
}
