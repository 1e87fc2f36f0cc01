/** The review code: checks over the stored lists, and the pairs written one by one into the UI context. */
module ReviewUi {
  import opened Bytes
  import opened Model
  import opened Review

  const MAX_UI_PAIRS := 16

  class UiContext {
    const pairs: array<Pair>
    var nbPairs: nat

    ghost predicate Valid()
      reads this
    {
      pairs.Length == MAX_UI_PAIRS && nbPairs <= MAX_UI_PAIRS
    }

    ghost function Shown(): (r: seq<Pair>)
      requires Valid()
      reads this, pairs
      ensures |r| == nbPairs
    {
      pairs[..nbPairs]
    }

    constructor ()
      ensures Valid() && Shown() == [] && fresh(pairs)
    {
      pairs := new Pair[MAX_UI_PAIRS](_ => Protocol);
      nbPairs := 0;
    }

    method Add(p: Pair)
      requires Valid() && nbPairs < MAX_UI_PAIRS
      modifies this, pairs
      ensures Valid() && Shown() == old(Shown()) + [p]
    {
      pairs[nbPairs] := p;
      nbPairs := nbPairs + 1;
    }

    method AddIf(cond: bool, p: Pair)
      requires Valid() && nbPairs < MAX_UI_PAIRS
      modifies this, pairs
      ensures Valid() && Shown() == old(Shown()) + if cond then [p] else []
    {
      if cond {
        Add(p);
      }
    }

    /** show_metadata_margin */
    method ShowMetadataMargin(meta: Metadata)
      requires Valid() && nbPairs < MAX_UI_PAIRS
      modifies this, pairs
      ensures Valid() && Shown() == old(Shown()) + MetaMargin(meta)
    {
      if meta.margin.Some? {
        Add(MarginPair(meta.margin.value));
      }
    }

    /** show_metadata_leverage */
    method ShowMetadataLeverage(meta: Metadata)
      requires Valid() && nbPairs < MAX_UI_PAIRS
      modifies this, pairs
      ensures Valid() && Shown() == old(Shown()) + MetaLeverage(meta)
    {
      if meta.leverage.Some? {
        Add(LeveragePair(meta.leverage.value));
      }
    }

    /** show_cancel_oids */
    method ShowCancelOids(cancels: seq<CancelRequest>)
      requires Valid() && nbPairs + |cancels| <= MAX_UI_PAIRS
      modifies this, pairs
      ensures Valid()
      ensures Shown() == old(Shown())
                         + seq(|cancels|, i requires 0 <= i < |cancels| => CancelledOrderId(cancels[i].oid))
    {
      for i := 0 to |cancels|
        invariant Valid() && nbPairs == old(nbPairs) + i
        invariant Shown() == old(Shown()) + seq(i, k requires 0 <= k < i => CancelledOrderId(cancels[k].oid))
      {
        Add(CancelledOrderId(cancels[i].oid));
      }
    }

    /** ui_order_common */
    method UiOrderCommon(meta: Metadata, limit: OrderRequest, change: Option<LeverageChange>,
                         tp: Option<OrderRequest>, sl: Option<OrderRequest>) returns (ok: bool)
      requires (tp.Some? ==> tp.value.kind.Trigger?) && (sl.Some? ==> sl.value.kind.Trigger?)
      requires Valid() && nbPairs <= 4
      modifies this, pairs
      ensures Valid() && (ok <==> (change.Some? ==> !change.value.isCross))
      ensures ok ==> Shown() == old(Shown()) + CommonPairs(meta, limit, change, tp, sl)
    {
      hide UiContext.Shown, MetaMargin;
      assert |MetaMargin(meta)| <= 1 by { OneMargin(meta); }
      ghost var start := Shown();
      ShowMetadataMargin(meta);
      if change.Some? {
        if change.value.isCross { return false; }
        Add(LeveragePair(change.value.leverage));
      }
      if tp.Some? {
        Add(TakeProfitPrice(TriggerPx(tp.value)));
      }
      if sl.Some? {
        Add(StopLossPrice(TriggerPx(sl.value)));
      }
      Add(Size(limit.sz, meta.ticker));
      FiveBehind(start, MetaMargin(meta), if change.Some? then [LeveragePair(change.value.leverage)] else [],
                 if tp.Some? then [TakeProfitPrice(TriggerPx(tp.value))] else [],
                 if sl.Some? then [StopLossPrice(TriggerPx(sl.value))] else [], [Size(limit.sz, meta.ticker)]);
      return true;
    }

    /** ui_market_order and ui_limit_order, by time in force. */
    method UiLimitOrMarketOrder(meta: Metadata, limit: OrderRequest, change: Option<LeverageChange>,
                                tp: Option<OrderRequest>, sl: Option<OrderRequest>) returns (intent: Option<Intent>)
      requires limit.kind.Limit? && (tp.Some? ==> tp.value.kind.Trigger?) && (sl.Some? ==> sl.value.kind.Trigger?)
      requires Valid() && nbPairs <= 2
      modifies this, pairs
      ensures Valid() && (intent.Some? <==> limit.kind.tif != Alo && (change.Some? ==> !change.value.isCross))
      ensures intent.Some? ==>
                Shown() == old(Shown()) + (OrderHeadPairs(meta, limit) + CommonPairs(meta, limit, change, tp, sl))
                && intent.value == if limit.kind.tif == Ioc then OpenMarket(SpeaksOfLong(limit)) else OpenLimit
    {
      hide CommonPairs, SpeaksOfLong;
      ghost var start := Shown();
      var ok;
      match limit.kind.tif {
        case Ioc =>
          Add(OrderOperation(true, SpeaksOfLong(limit), meta.ticker));
          ok := UiOrderCommon(meta, limit, change, tp, sl);
          intent := if ok then Some(OpenMarket(SpeaksOfLong(limit))) else None;
        case Gtc =>
          Add(OrderOperation(false, SpeaksOfLong(limit), meta.ticker));
          Add(LimitPrice(limit.limitPx));
          ok := UiOrderCommon(meta, limit, change, tp, sl);
          intent := if ok then Some(OpenLimit) else None;
        case Alo =>
          intent := None;
      }
      ghost var head, common := OrderHeadPairs(meta, limit), CommonPairs(meta, limit, change, tp, sl);
      assert (start + head) + common == start + (head + common);
    }

    /** ui_order */
    method UiOrder(meta: Metadata, orders: seq<OrderRequest>, change: Option<LeverageChange>)
      returns (intent: Option<Intent>)
      requires Valid() && nbPairs <= 2
      modifies this, pairs
      ensures Valid() && (intent.Some? <==> OrderAccepted(orders, change))
      ensures intent.Some? ==> var s := OrderScreen(meta, orders, change);
                               Shown() == old(Shown()) + s.pairs && intent.value == s.intent
    {
      hide Filter, First, CheckTriggerMatchesLimit, CommonPairs, OrderHeadPairs, SpeaksOfLong;
      var limit := Find(orders, IsLimit);
      if limit.None? { return None; }
      var tp := Find(orders, IsTp);
      var sl := Find(orders, IsSl);
      var limits := Count(orders, IsLimit);
      var tps := Count(orders, IsTp);
      var sls := Count(orders, IsSl);
      if limits != 1 || tps > 1 || sls > 1
         || |orders| != (1 + (if tp.Some? then 1 else 0) + if sl.Some? then 1 else 0) % 0x100 {
        return None;
      }
      if (tp.Some? && !CheckTriggerMatchesLimit(tp.value, limit.value))
         || (sl.Some? && !CheckTriggerMatchesLimit(sl.value, limit.value)) {
        return None;
      }
      intent := UiLimitOrMarketOrder(meta, limit.value, change, tp, sl);
    }

    /** The checks of ui_modify over one list: the shown take-profit and stop-loss, or a refusal. */
    method CheckModify(entries: seq<Entry>, isNew: bool) returns (ok: bool, tp: Option<Entry>, sl: Option<Entry>)
      ensures ok <==> ModifyAccepted(entries, isNew)
      ensures tp == First(entries, EntryIsTp) && sl == First(entries, EntryIsSl)
    {
      hide Filter, First, CheckTriggerCloseOrder;
      tp := Find(entries, EntryIsTp);
      sl := Find(entries, EntryIsSl);
      if isNew {
        var limits := Count(entries, EntryIsLimit);
        if limits != 0 { return false, tp, sl; }
      }
      var tps := Count(entries, EntryIsTp);
      var sls := Count(entries, EntryIsSl);
      if tps > 1 || sls > 1 || |entries| != ((if tp.Some? then 1 else 0) + if sl.Some? then 1 else 0) % 0x100 {
        return false, tp, sl;
      }
      if tp.None? && sl.None? { return false, tp, sl; }
      if (tp.Some? && !CheckTriggerCloseOrder(tp.value.order)) || (sl.Some? && !CheckTriggerCloseOrder(sl.value.order))
         || (tp.Some? && sl.Some? && tp.value.order.sz != sl.value.order.sz) {
        return false, tp, sl;
      }
      return true, tp, sl;
    }

    method ShowTakeProfit(e: Option<Entry>)
      requires e.Some? ==> e.value.order.kind.Trigger?
      requires Valid() && nbPairs + 2 <= MAX_UI_PAIRS
      modifies this, pairs
      ensures Valid() && Shown() == old(Shown()) + TpPairs(e) && nbPairs <= old(nbPairs) + 2
    {
      if e.Some? {
        Add(TakeProfitPrice(TriggerPx(e.value.order)));
        if e.value.oid.Some? {
          Add(TpOrderId(e.value.oid.value));
        }
      }
    }

    method ShowStopLoss(e: Option<Entry>)
      requires e.Some? ==> e.value.order.kind.Trigger?
      requires Valid() && nbPairs + 2 <= MAX_UI_PAIRS
      modifies this, pairs
      ensures Valid() && Shown() == old(Shown()) + SlPairs(e) && nbPairs <= old(nbPairs) + 2
    {
      if e.Some? {
        Add(StopLossPrice(TriggerPx(e.value.order)));
        if e.value.oid.Some? {
          Add(SlOrderId(e.value.oid.value));
        }
      }
    }

    /** ui_modify */
    method UiModify(meta: Metadata, entries: seq<Entry>, isNew: bool) returns (intent: Option<Intent>)
      requires Valid() && nbPairs <= 2
      modifies this, pairs
      ensures Valid() && (intent.Some? <==> ModifyAccepted(entries, isNew))
      ensures intent.Some? ==> var s := ModifyScreen(meta, entries, isNew);
                               Shown() == old(Shown()) + s.pairs && intent.value == s.intent
    {
      hide Filter, First, CheckTriggerCloseOrder, ModifyStructureOk, SpeaksOfLong, UiContext.Shown, MetaMargin,
           MetaLeverage, TpPairs, SlPairs;
      assert |MetaMargin(meta)| <= 1 && |MetaLeverage(meta)| <= 1 by { OneMargin(meta); }
      var ok, tp, sl := CheckModify(entries, isNew);
      if !ok { return None; }
      var any := if tp.None? then sl.value.order else tp.value.order;
      ghost var start := Shown();
      Add(ActivePosition(SpeaksOfLong(any), meta.ticker));
      ShowMetadataMargin(meta);
      ShowMetadataLeverage(meta);
      Add(Size(any.sz, meta.ticker));
      ShowTakeProfit(tp);
      ShowStopLoss(sl);
      FiveBehind(start, [ActivePosition(SpeaksOfLong(any), meta.ticker)], MetaMargin(meta), MetaLeverage(meta),
                 [Size(any.sz, meta.ticker)], TpPairs(tp) + SlPairs(sl));
      assert start + [ActivePosition(SpeaksOfLong(any), meta.ticker)] + MetaMargin(meta) + MetaLeverage(meta)
          + [Size(any.sz, meta.ticker)] + TpPairs(tp) + SlPairs(sl)
          == start + [ActivePosition(SpeaksOfLong(any), meta.ticker)] + MetaMargin(meta) + MetaLeverage(meta)
          + [Size(any.sz, meta.ticker)] + (TpPairs(tp) + SlPairs(sl));
      intent := Some(EditTriggers(isNew, tp.Some?, sl.Some?));
    }

    /** ui_cancel and ui_cancel_tp_sl */
    method UiCancel(meta: Metadata, cancels: seq<CancelRequest>) returns (intent: Option<Intent>)
      requires Valid() && nbPairs <= 2
      modifies this, pairs
      ensures Valid() && (intent.Some? <==> CancelAccepted(meta.opType, cancels))
      ensures intent.Some? ==> var s := CancelScreen(meta, cancels);
                               Shown() == old(Shown()) + s.pairs && intent.value == s.intent
    {
      if |cancels| != if meta.opType == OpCancelTpSl then 2 else 1 { return None; }
      Add(CancelOperation(TargetOf(meta.opType), meta.ticker));
      ShowMetadataMargin(meta);
      ShowMetadataLeverage(meta);
      ShowCancelOids(cancels);
      intent := Some(CancelOrder(TargetOf(meta.opType)));
    }

    /** ui_close */
    method UiClose(meta: Metadata, orders: seq<OrderRequest>) returns (intent: Option<Intent>)
      requires Valid() && nbPairs <= 2
      modifies this, pairs
      ensures Valid() && (intent.Some? <==> CloseAccepted(orders))
      ensures intent.Some? ==> var s := CloseScreen(meta, orders);
                               Shown() == old(Shown()) + s.pairs && intent.value == s.intent
    {
      hide Filter, First, SpeaksOfLong;
      if |orders| != 1 { return None; }
      var limit := Find(orders, IsLimit);
      if limit.None? || !limit.value.reduceOnly { return None; }
      Add(PositionToClose(SpeaksOfLong(limit.value), meta.ticker));
      ShowMetadataMargin(meta);
      ShowMetadataLeverage(meta);
      Add(Size(limit.value.sz, meta.ticker));
      intent := Some(ClosePosition(SpeaksOfLong(limit.value)));
    }

    /** ui_update_margin */
    method UiUpdateMargin(meta: Metadata, isBuy: bool, ntli: i64) returns (intent: Option<Intent>)
      requires Valid() && nbPairs <= 2
      modifies this, pairs
      ensures Valid() && intent.Some?
      ensures var s := MarginScreen(meta, isBuy, ntli);
              Shown() == old(Shown()) + s.pairs && intent.value == s.intent
    {
      Add(ActivePosition(isBuy, meta.ticker));
      Add(NewMargin(Magnitude(ntli)));
      ShowMetadataLeverage(meta);
      intent := Some(ChangeMargin(ntli < 0, isBuy));
    }

    /** handle_ui: the opening pairs, then the review of the operation. */
    method HandleUi(meta: Metadata, actions: seq<Action>) returns (screen: Option<Screen>)
      requires Valid() && Shown() == []
      modifies this, pairs
      ensures Valid() && screen == FullScreen(meta, actions)
    {
      hide OrderAccepted, ModifyAccepted, CancelAccepted, CloseAccepted, OrderScreen, ModifyScreen, CancelScreen,
           CloseScreen, MarginScreen, MetaMargin, MetaLeverage;
      Add(Protocol);
      AddIf(meta.network == Testnet, TestnetNotice);
      assert Shown() == Opening(meta);
      var intent: Option<Intent>;
      match meta.opType {
        case OpOrder =>
          var a := Lookup(actions, TBulkOrder);
          if a.None? { return None; }
          intent := UiOrder(meta, a.value.body.orders, LeverageChangeOf(actions));
        case OpModify =>
          var t := ModifyTarget(actions);
          if t.None? { return None; }
          intent := UiModify(meta, t.value.0, t.value.1);
        case OpClose =>
          var a := Lookup(actions, TBulkOrder);
          if a.None? { return None; }
          intent := UiClose(meta, a.value.body.orders);
        case OpUpdateMargin =>
          var a := Lookup(actions, TUpdateIsolatedMargin);
          if a.None? { return None; }
          intent := UiUpdateMargin(meta, a.value.body.marginIsBuy, a.value.body.ntli);
        case _ =>
          var a := Lookup(actions, TBulkCancel);
          if a.None? { return None; }
          intent := UiCancel(meta, a.value.body.cancels);
      }
      if intent.None? { return None; }
      return Some(Screen(pairs[..nbPairs], intent.value));
    }
  }

  lemma OneMargin(meta: Metadata)
    ensures |MetaMargin(meta)| <= 1 && |MetaLeverage(meta)| <= 1
  {
  }

  lemma FiveBehind(o: seq<Pair>, a: seq<Pair>, b: seq<Pair>, c: seq<Pair>, d: seq<Pair>, e: seq<Pair>)
    ensures o + a + b + c + d + e == o + (a + b + c + d + e)
  {
  }
}
