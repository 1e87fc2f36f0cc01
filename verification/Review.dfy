/** What a review accepts and what it puts on the screen, as values: one function per kind of operation. */
module Review {
  import opened Bytes
  import opened Model

  // ---------------------------------------------------------------- searching and counting

  function Filter<X>(xs: seq<X>, p: X -> bool): (r: seq<X>)
    ensures forall i :: 0 <= i < |r| ==> p(r[i])
  {
    if xs == [] then []
    else Filter(xs[..|xs| - 1], p) + if p(xs[|xs| - 1]) then [xs[|xs| - 1]] else []
  }

  function First<X>(xs: seq<X>, p: X -> bool): (r: Option<X>)
    ensures r.Some? ==> p(r.value)
  {
    if Filter(xs, p) == [] then None else Some(Filter(xs, p)[0])
  }

  /** get_order_request and get_modify_request: the first match. */
  method Find<X>(xs: seq<X>, p: X -> bool) returns (r: Option<X>)
    ensures r == First(xs, p)
    ensures r.None? <==> forall i :: 0 <= i < |xs| ==> !p(xs[i])
    ensures r.Some? ==> exists i :: 0 <= i < |xs| && r.value == xs[i] && p(xs[i]) && forall j :: 0 <= j < i ==> !p(xs[j])
  {
    for i := 0 to |xs|
      invariant Filter(xs[..i], p) == []
      invariant forall j :: 0 <= j < i ==> !p(xs[j])
    {
      assert xs[..i + 1][..i] == xs[..i];
      if p(xs[i]) {
        assert Filter(xs[..i + 1], p) == [xs[i]];
        FilterPrefix(xs, i + 1, p);
        return Some(xs[i]);
      }
    }
    assert xs[..|xs|] == xs;
    return None;
  }

  lemma {:induction false} FilterPrefix<X>(xs: seq<X>, k: nat, p: X -> bool)
    requires k <= |xs|
    ensures Filter(xs[..k], p) <= Filter(xs, p)
  {
    if k < |xs| {
      FilterPrefix(xs[..|xs| - 1], k, p);
      assert xs[..|xs| - 1][..k] == xs[..k];
    } else {
      assert xs[..k] == xs;
    }
  }

  /** count_order_requests and count_modify_requests */
  method Count<X>(xs: seq<X>, p: X -> bool) returns (count: nat)
    ensures count == |Filter(xs, p)|
  {
    count := 0;
    for i := 0 to |xs|
      invariant count == |Filter(xs[..i], p)|
    {
      assert xs[..i + 1][..i] == xs[..i];
      if p(xs[i]) {
        count := count + 1;
      }
    }
    assert xs[..|xs|] == xs;
  }

  // ---------------------------------------------------------------- matchers and checks

  predicate IsLimit(o: OrderRequest) { o.kind.Limit? }

  predicate IsTp(o: OrderRequest) { o.kind.Trigger? && o.kind.tpsl == TakeProfit }

  predicate IsSl(o: OrderRequest) { o.kind.Trigger? && o.kind.tpsl == StopLoss }

  /** The position side a request speaks of: reduce-only orders speak of the opposite one. */
  predicate SpeaksOfLong(o: OrderRequest) {
    if o.reduceOnly then !o.isBuy else o.isBuy
  }

  predicate CheckTriggerCloseOrder(t: OrderRequest)
    requires t.kind.Trigger?
  {
    t.reduceOnly && t.kind.isMarket && t.limitPx == t.kind.triggerPx
  }

  predicate CheckTriggerMatchesLimit(t: OrderRequest, limit: OrderRequest)
    requires t.kind.Trigger?
  {
    CheckTriggerCloseOrder(t) && t.isBuy != limit.isBuy && t.sz == limit.sz
  }

  // ---------------------------------------------------------------- the screen

  datatype CancelTarget = AnyOrder | TpTarget | SlTarget | TpSlTarget

  datatype Pair =
    | Protocol
    | TestnetNotice
    | OrderOperation(market: bool, long: bool, ticker: Ticker)
    | LimitPrice(px: Numeric)
    | MarginPair(amount: u64)
    | LeveragePair(times: u32)
    | TakeProfitPrice(px: Numeric)
    | StopLossPrice(px: Numeric)
    | Size(sz: Numeric, ticker: Ticker)
    | ActivePosition(long: bool, ticker: Ticker)
    | TpOrderId(oid: u64)
    | SlOrderId(oid: u64)
    | CancelOperation(target: CancelTarget, ticker: Ticker)
    | CancelledOrderId(oid: u64)
    | PositionToClose(long: bool, ticker: Ticker)
    | NewMargin(amount: u64)

  datatype Intent =
    | OpenMarket(long: bool)
    | OpenLimit
    | EditTriggers(isNew: bool, tp: bool, sl: bool)
    | CancelOrder(target: CancelTarget)
    | ClosePosition(long: bool)
    | ChangeMargin(remove: bool, long: bool)

  /** Everything the user is shown: the pairs in order, and the intent sentence. */
  datatype Screen = Screen(pairs: seq<Pair>, intent: Intent)

  function OptPair<X>(x: Option<X>, f: X -> Pair): seq<Pair> {
    if x.Some? then [f(x.value)] else []
  }

  function Opening(meta: Metadata): seq<Pair> {
    [Protocol] + if meta.network == Testnet then [TestnetNotice] else []
  }

  function MetaMargin(meta: Metadata): seq<Pair> { OptPair(meta.margin, a => MarginPair(a)) }

  function MetaLeverage(meta: Metadata): seq<Pair> { OptPair(meta.leverage, x => LeveragePair(x)) }

  function TriggerPx(o: OrderRequest): Numeric
    requires o.kind.Trigger?
  {
    o.kind.triggerPx
  }

  // ---------------------------------------------------------------- order

  /** A pending leverage change, as ui_order sees it. */
  datatype LeverageChange = LeverageChange(isCross: bool, leverage: u32)

  predicate OrderStructureOk(orders: seq<OrderRequest>) {
    var tp, sl := First(orders, IsTp), First(orders, IsSl);
    |Filter(orders, IsLimit)| == 1 && |Filter(orders, IsTp)| <= 1 && |Filter(orders, IsSl)| <= 1
    && |orders| == (1 + (if tp.Some? then 1 else 0) + if sl.Some? then 1 else 0) % 0x100
  }

  predicate OrderAccepted(orders: seq<OrderRequest>, change: Option<LeverageChange>) {
    var limit, tp, sl := First(orders, IsLimit), First(orders, IsTp), First(orders, IsSl);
    limit.Some? && OrderStructureOk(orders)
    && (tp.Some? ==> CheckTriggerMatchesLimit(tp.value, limit.value))
    && (sl.Some? ==> CheckTriggerMatchesLimit(sl.value, limit.value))
    && limit.value.kind.tif != Alo
    && (change.Some? ==> !change.value.isCross)
  }

  /** ui_order_common: what market and limit reviews share. */
  function CommonPairs(meta: Metadata, limit: OrderRequest, change: Option<LeverageChange>, tp: Option<OrderRequest>,
                       sl: Option<OrderRequest>): seq<Pair>
    requires (tp.Some? ==> tp.value.kind.Trigger?) && (sl.Some? ==> sl.value.kind.Trigger?)
  {
    MetaMargin(meta)
    + (if change.Some? then [LeveragePair(change.value.leverage)] else [])
    + (if tp.Some? then [TakeProfitPrice(TriggerPx(tp.value))] else [])
    + (if sl.Some? then [StopLossPrice(TriggerPx(sl.value))] else [])
    + [Size(limit.sz, meta.ticker)]
  }

  function OrderHeadPairs(meta: Metadata, limit: OrderRequest): seq<Pair>
    requires limit.kind.Limit?
  {
    [OrderOperation(limit.kind.tif == Ioc, SpeaksOfLong(limit), meta.ticker)]
    + if limit.kind.tif == Ioc then [] else [LimitPrice(limit.limitPx)]
  }

  function OrderScreen(meta: Metadata, orders: seq<OrderRequest>, change: Option<LeverageChange>): Screen
    requires OrderAccepted(orders, change)
  {
    var limit := First(orders, IsLimit).value;
    Screen(OrderHeadPairs(meta, limit) + CommonPairs(meta, limit, change, First(orders, IsTp), First(orders, IsSl)),
           if limit.kind.tif == Ioc then OpenMarket(SpeaksOfLong(limit)) else OpenLimit)
  }

  // ---------------------------------------------------------------- modify

  /** One entry of a modify review: a request and, when an existing order is edited, its id. */
  datatype Entry = Entry(order: OrderRequest, oid: Option<u64>)

  predicate EntryIsLimit(e: Entry) { IsLimit(e.order) }

  predicate EntryIsTp(e: Entry) { IsTp(e.order) }

  predicate EntryIsSl(e: Entry) { IsSl(e.order) }

  function EditEntries(edits: seq<ModifyRequest>): (r: seq<Entry>)
    ensures |r| == |edits|
  {
    seq(|edits|, i requires 0 <= i < |edits| => Entry(edits[i].order, Some(edits[i].oid)))
  }

  function OrderEntries(orders: seq<OrderRequest>): (r: seq<Entry>)
    ensures |r| == |orders|
  {
    seq(|orders|, i requires 0 <= i < |orders| => Entry(orders[i], None))
  }

  predicate ModifyStructureOk(entries: seq<Entry>, isNew: bool) {
    var tp, sl := First(entries, EntryIsTp), First(entries, EntryIsSl);
    (isNew ==> |Filter(entries, EntryIsLimit)| == 0)
    && |Filter(entries, EntryIsTp)| <= 1 && |Filter(entries, EntryIsSl)| <= 1
    && |entries| == ((if tp.Some? then 1 else 0) + if sl.Some? then 1 else 0) % 0x100
  }

  /** isNew: the triggers come as a bulk order rather than as edits of existing orders. */
  predicate ModifyAccepted(entries: seq<Entry>, isNew: bool) {
    var tp, sl := First(entries, EntryIsTp), First(entries, EntryIsSl);
    ModifyStructureOk(entries, isNew)
    && (tp.Some? || sl.Some?)
    && (tp.Some? ==> CheckTriggerCloseOrder(tp.value.order))
    && (sl.Some? ==> CheckTriggerCloseOrder(sl.value.order))
    && (tp.Some? && sl.Some? ==> tp.value.order.sz == sl.value.order.sz)
  }

  /** A take-profit's price and, for an edit, its order id. */
  function TpPairs(e: Option<Entry>): seq<Pair>
    requires e.Some? ==> e.value.order.kind.Trigger?
  {
    if e.None? then [] else [TakeProfitPrice(TriggerPx(e.value.order))] + OptPair(e.value.oid, i => TpOrderId(i))
  }

  function SlPairs(e: Option<Entry>): seq<Pair>
    requires e.Some? ==> e.value.order.kind.Trigger?
  {
    if e.None? then [] else [StopLossPrice(TriggerPx(e.value.order))] + OptPair(e.value.oid, i => SlOrderId(i))
  }

  function ModifyScreen(meta: Metadata, entries: seq<Entry>, isNew: bool): Screen
    requires ModifyAccepted(entries, isNew)
  {
    var tp, sl := First(entries, EntryIsTp), First(entries, EntryIsSl);
    var any := if tp.Some? then tp.value.order else sl.value.order;
    Screen(
      [ActivePosition(SpeaksOfLong(any), meta.ticker)]
      + MetaMargin(meta)
      + MetaLeverage(meta)
      + [Size(any.sz, meta.ticker)]
      + (TpPairs(tp) + SlPairs(sl)),
      EditTriggers(isNew, tp.Some?, sl.Some?))
  }

  // ---------------------------------------------------------------- cancel, close, margin

  function TargetOf(op: OpType): CancelTarget {
    match op
    case OpCancelTp => TpTarget
    case OpCancelSl => SlTarget
    case OpCancelTpSl => TpSlTarget
    case _ => AnyOrder
  }

  predicate CancelAccepted(op: OpType, cancels: seq<CancelRequest>) {
    |cancels| == if op == OpCancelTpSl then 2 else 1
  }

  function CancelScreen(meta: Metadata, cancels: seq<CancelRequest>): Screen {
    Screen(
      [CancelOperation(TargetOf(meta.opType), meta.ticker)] + MetaMargin(meta) + MetaLeverage(meta)
      + seq(|cancels|, i requires 0 <= i < |cancels| => CancelledOrderId(cancels[i].oid)),
      CancelOrder(TargetOf(meta.opType)))
  }

  predicate CloseAccepted(orders: seq<OrderRequest>) {
    var limit := First(orders, IsLimit);
    |orders| == 1 && limit.Some? && limit.value.reduceOnly
  }

  function CloseScreen(meta: Metadata, orders: seq<OrderRequest>): Screen
    requires CloseAccepted(orders)
  {
    var limit := First(orders, IsLimit).value;
    Screen(
      [PositionToClose(SpeaksOfLong(limit), meta.ticker)] + MetaMargin(meta) + MetaLeverage(meta)
      + [Size(limit.sz, meta.ticker)],
      ClosePosition(SpeaksOfLong(limit)))
  }

  /** The unsigned magnitude of a margin change, negated with 64-bit wrap-around. */
  function Magnitude(ntli: i64): u64 {
    if ntli < 0 then (0x1_0000_0000_0000_0000 - ToUnsigned(ntli)) % 0x1_0000_0000_0000_0000 else ToUnsigned(ntli)
  }

  function MarginScreen(meta: Metadata, isBuy: bool, ntli: i64): Screen {
    Screen(
      [ActivePosition(isBuy, meta.ticker), NewMargin(Magnitude(ntli))] + MetaLeverage(meta),
      ChangeMargin(ntli < 0, isBuy))
  }

  // ---------------------------------------------------------------- the whole review

  /** ctx_get_action: the first stored action of a type. */
  function Lookup(actions: seq<Action>, t: ActionType): (r: Option<Action>)
    ensures r.Some? ==> TypeOf(r.value.body) == t && r.value in actions
  {
    if actions == [] then None
    else if TypeOf(actions[0].body) == t then Some(actions[0])
    else Lookup(actions[1..], t)
  }

  function LeverageChangeOf(actions: seq<Action>): Option<LeverageChange> {
    match Lookup(actions, TUpdateLeverage)
    case None => None
    case Some(a) => Some(LeverageChange(a.body.isCross, a.body.leverage))
  }

  /** What ui_modify works on: the stored edits or, when there are none, the stored orders. */
  function ModifyTarget(actions: seq<Action>): Option<(seq<Entry>, bool)> {
    match Lookup(actions, TBulkModify)
    case Some(a) => Some((EditEntries(a.body.edits), false))
    case None =>
      match Lookup(actions, TBulkOrder)
      case Some(a) => Some((OrderEntries(a.body.orders), true))
      case None => None
  }

  /** The review of the stored actions under the metadata's operation: a screen, or a refusal. */
  function ReviewScreen(meta: Metadata, actions: seq<Action>): Option<Screen> {
    match meta.opType
    case OpOrder =>
      (var a :- Lookup(actions, TBulkOrder);
       if OrderAccepted(a.body.orders, LeverageChangeOf(actions)) then
         Some(OrderScreen(meta, a.body.orders, LeverageChangeOf(actions)))
       else None)
    case OpModify =>
      (var (entries, isNew) :- ModifyTarget(actions);
       if ModifyAccepted(entries, isNew) then Some(ModifyScreen(meta, entries, isNew)) else None)
    case OpClose =>
      (var a :- Lookup(actions, TBulkOrder);
       if CloseAccepted(a.body.orders) then Some(CloseScreen(meta, a.body.orders)) else None)
    case OpUpdateMargin =>
      (var a :- Lookup(actions, TUpdateIsolatedMargin);
       Some(MarginScreen(meta, a.body.marginIsBuy, a.body.ntli)))
    case _ =>
      (var a :- Lookup(actions, TBulkCancel);
       if CancelAccepted(meta.opType, a.body.cancels) then Some(CancelScreen(meta, a.body.cancels)) else None)
  }

  /** handle_ui: the same behind the opening pairs. */
  function FullScreen(meta: Metadata, actions: seq<Action>): Option<Screen> {
    var s :- ReviewScreen(meta, actions);
    Some(Screen(Opening(meta) + s.pairs, s.intent))
  }
}
