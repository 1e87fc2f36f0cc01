/** What each review shows, written out in terms of the requests that are signed, and when a review opens at all. */
module Screens {
  import opened Bytes
  import opened Model
  import opened Review
  import opened ReviewProofs

  /** The amount of metadata's margin and leverage pairs, if they have them. */
  lemma MetaPairs(meta: Metadata)
    ensures MetaMargin(meta) == if meta.margin.Some? then [MarginPair(meta.margin.value)] else []
    ensures MetaLeverage(meta) == if meta.leverage.Some? then [LeveragePair(meta.leverage.value)] else []
  {
  }

  // ---------------------------------------------------------------- order

  /**
   An order review of a bracket: long for a buy that opens and for a sell that is reduce-only, the limit price unless
   the order is a market order, each trigger's own price, and the size.
   */
  lemma OrderScreenWrittenOut(meta: Metadata, orders: seq<OrderRequest>, change: Option<LeverageChange>,
                              limit: OrderRequest, tp: Option<OrderRequest>, sl: Option<OrderRequest>)
    requires IsBracket(orders, limit, tp, sl) && (change.Some? ==> !change.value.isCross)
    ensures OrderAccepted(orders, change)
    ensures var long := limit.isBuy != limit.reduceOnly;
            var market := limit.kind == Limit(Ioc);
            OrderScreen(meta, orders, change) == Screen(
              [OrderOperation(market, long, meta.ticker)]
              + (if market then [] else [LimitPrice(limit.limitPx)])
              + (if meta.margin.Some? then [MarginPair(meta.margin.value)] else [])
              + (if change.Some? then [LeveragePair(change.value.leverage)] else [])
              + (if tp.Some? then [TakeProfitPrice(tp.value.kind.triggerPx)] else [])
              + (if sl.Some? then [StopLossPrice(sl.value.kind.triggerPx)] else [])
              + [Size(limit.sz, meta.ticker)],
              if market then OpenMarket(long) else OpenLimit)
  {
    BracketIsAccepted(orders, change, limit, tp, sl);
    BracketRoles(orders, limit, tp, sl);
    MetaPairs(meta);
    hide Filter, First, MetaMargin, OrderAccepted;
    var market := limit.kind == Limit(Ioc);
    Reassociate([OrderOperation(market, SpeaksOfLong(limit), meta.ticker)],
                if market then [] else [LimitPrice(limit.limitPx)], MetaMargin(meta),
                if change.Some? then [LeveragePair(change.value.leverage)] else [],
                if tp.Some? then [TakeProfitPrice(TriggerPx(tp.value))] else [],
                if sl.Some? then [StopLossPrice(TriggerPx(sl.value))] else [], [Size(limit.sz, meta.ticker)]);
  }

  // ---------------------------------------------------------------- modify

  /**
   A modify review of a trigger pair: the side that the triggers close, one size, and each trigger's own price and,
   for an edit, its own order id.
   */
  lemma ModifyScreenWrittenOut(meta: Metadata, entries: seq<Entry>, isNew: bool, tp: Option<Entry>, sl: Option<Entry>)
    requires IsTriggerPair(entries, tp, sl)
    ensures ModifyAccepted(entries, isNew)
    ensures var any := if tp.Some? then tp.value.order else sl.value.order;
            ModifyScreen(meta, entries, isNew) == Screen(
              [ActivePosition(!any.isBuy, meta.ticker)]
              + (if meta.margin.Some? then [MarginPair(meta.margin.value)] else [])
              + (if meta.leverage.Some? then [LeveragePair(meta.leverage.value)] else [])
              + [Size(any.sz, meta.ticker)]
              + ((if tp.None? then [] else [TakeProfitPrice(tp.value.order.kind.triggerPx)]
                                           + if tp.value.oid.Some? then [TpOrderId(tp.value.oid.value)] else [])
                 + (if sl.None? then [] else [StopLossPrice(sl.value.order.kind.triggerPx)]
                                             + if sl.value.oid.Some? then [SlOrderId(sl.value.oid.value)] else [])),
              EditTriggers(isNew, tp.Some?, sl.Some?))
  {
    PairRoles(entries, tp, sl);
    ModifyReviewExact(entries, isNew);
    MetaPairs(meta);
    hide Filter, First, MetaMargin, MetaLeverage, ModifyAccepted;
  }

  // ---------------------------------------------------------------- close, cancel, margin

  /** A close review: the position that the order closes, and its size. */
  lemma CloseScreenWrittenOut(meta: Metadata, o: OrderRequest)
    requires o.kind.Limit? && o.reduceOnly
    ensures CloseAccepted([o])
    ensures CloseScreen(meta, [o]) == Screen(
              [PositionToClose(!o.isBuy, meta.ticker)]
              + (if meta.margin.Some? then [MarginPair(meta.margin.value)] else [])
              + (if meta.leverage.Some? then [LeveragePair(meta.leverage.value)] else [])
              + [Size(o.sz, meta.ticker)],
              ClosePosition(!o.isBuy))
  {
    FirstOfOne(o, IsLimit);
    MetaPairs(meta);
    hide First, MetaMargin, MetaLeverage;
  }

  /** What a cancellation is called: by its operation, and only by that. */
  lemma TargetWrittenOut(op: OpType)
    ensures TargetOf(op) == TpTarget <==> op == OpCancelTp
    ensures TargetOf(op) == SlTarget <==> op == OpCancelSl
    ensures TargetOf(op) == TpSlTarget <==> op == OpCancelTpSl
  {
  }

  /** A cancel review: two requests for a take-profit with a stop-loss, one otherwise, and the id of each, in order. */
  lemma CancelScreenWrittenOut(meta: Metadata, cancels: seq<CancelRequest>)
    ensures CancelAccepted(meta.opType, cancels) <==> |cancels| == if meta.opType == OpCancelTpSl then 2 else 1
    ensures var s := CancelScreen(meta, cancels);
            var head := [CancelOperation(TargetOf(meta.opType), meta.ticker)]
                        + (if meta.margin.Some? then [MarginPair(meta.margin.value)] else [])
                        + (if meta.leverage.Some? then [LeveragePair(meta.leverage.value)] else []);
            s.intent == CancelOrder(TargetOf(meta.opType)) && |s.pairs| == |head| + |cancels| && head <= s.pairs
            && forall i :: 0 <= i < |cancels| ==> s.pairs[|head| + i] == CancelledOrderId(cancels[i].oid)
  {
    MetaPairs(meta);
    hide MetaMargin, MetaLeverage, TargetOf;
  }

  /** A margin review: the side, the amount without its sign, and whether it is taken away. */
  lemma MarginScreenWrittenOut(meta: Metadata, isBuy: bool, ntli: i64)
    ensures MarginScreen(meta, isBuy, ntli) == Screen(
              [ActivePosition(isBuy, meta.ticker), NewMargin(if ntli < 0 then -(ntli as int) else ntli as int)]
              + (if meta.leverage.Some? then [LeveragePair(meta.leverage.value)] else []),
              ChangeMargin(ntli < 0, isBuy))
  {
    MagnitudeReadsBack(ntli);
    MetaPairs(meta);
    hide Magnitude, MetaLeverage;
  }

  /** Every screen opens with the protocol, and with a notice exactly on the test network. */
  lemma OpeningWrittenOut(meta: Metadata, actions: seq<Action>)
    ensures FullScreen(meta, actions).Some? <==> ReviewScreen(meta, actions).Some?
    ensures FullScreen(meta, actions).Some? ==>
              FullScreen(meta, actions).value.intent == ReviewScreen(meta, actions).value.intent
              && FullScreen(meta, actions).value.pairs ==
                 (if meta.network == Testnet then [Protocol, TestnetNotice] else [Protocol])
                 + ReviewScreen(meta, actions).value.pairs
  {
    hide ReviewScreen;
    assert [Protocol] + [TestnetNotice] == [Protocol, TestnetNotice];
  }

  // ---------------------------------------------------------------- when a review opens

  ghost predicate IsOrderList(orders: seq<OrderRequest>) {
    exists limit, tp, sl :: IsBracket(orders, limit, tp, sl)
  }

  ghost predicate IsModifyList(entries: seq<Entry>) {
    exists tp, sl :: IsTriggerPair(entries, tp, sl)
  }

  ghost predicate IsCloseList(orders: seq<OrderRequest>) {
    exists o :: IsLoneClose(orders, o)
  }

  /** What an operation can review among the stored actions, found by their types. */
  ghost predicate Reviewable(meta: Metadata, actions: seq<Action>) {
    var orders, edits, cancels, leverage :=
      Lookup(actions, TBulkOrder), Lookup(actions, TBulkModify), Lookup(actions, TBulkCancel), Lookup(actions, TUpdateLeverage);
    match meta.opType
    case OpOrder =>
      orders.Some? && IsOrderList(orders.value.body.orders) && (leverage.Some? ==> !leverage.value.body.isCross)
    case OpModify =>
      if edits.Some? then IsModifyList(EditEntries(edits.value.body.edits))
      else orders.Some? && IsModifyList(OrderEntries(orders.value.body.orders))
    case OpClose => orders.Some? && IsCloseList(orders.value.body.orders)
    case OpUpdateMargin => Lookup(actions, TUpdateIsolatedMargin).Some?
    case OpCancelTpSl => cancels.Some? && |cancels.value.body.cancels| == 2
    case _ => cancels.Some? && |cancels.value.body.cancels| == 1
  }

  /** A review opens exactly for what its operation can review. */
  lemma ReviewOpensExactly(meta: Metadata, actions: seq<Action>)
    ensures FullScreen(meta, actions).Some? <==> Reviewable(meta, actions)
  {
    hide Lookup, OrderAccepted, ModifyAccepted, CloseAccepted, OrderScreen, ModifyScreen, CloseScreen, CancelScreen,
         MarginScreen, EditEntries, OrderEntries, Opening, IsBracket, IsTriggerPair, IsLoneClose;
    var orders, edits := Lookup(actions, TBulkOrder), Lookup(actions, TBulkModify);
    if orders.Some? {
      OrderReviewExact(orders.value.body.orders, LeverageChangeOf(actions));
      CloseReviewExact(orders.value.body.orders);
      ModifyReviewExact(OrderEntries(orders.value.body.orders), true);
    }
    if edits.Some? {
      ModifyReviewExact(EditEntries(edits.value.body.edits), false);
    }
  }
}
