/** No hidden requests: exactly which lists a review accepts, and how much of them the screen pins down. */
module ReviewProofs {
  import opened Bytes
  import opened Model
  import opened Review

  // ---------------------------------------------------------------- partitions

  function Bag<X>(x: Option<X>): multiset<X> {
    if x.Some? then multiset{x.value} else multiset{}
  }

  function One<X>(present: bool, x: X): multiset<X> {
    if present then multiset{x} else multiset{}
  }

  lemma FilterStep<X>(init: seq<X>, last: X, p: X -> bool)
    ensures multiset(Filter(init + [last], p)) == multiset(Filter(init, p)) + One(p(last), last)
    ensures |Filter(init + [last], p)| == |Filter(init, p)| + if p(last) then 1 else 0
  {
    assert (init + [last])[..|init|] == init;
  }

  ghost predicate ExactlyOne(a: bool, b: bool, c: bool) {
    (a && !b && !c) || (!a && b && !c) || (!a && !b && c)
  }

  lemma AddOne<X>(a: multiset<X>, b: multiset<X>, c: multiset<X>, x: X, ina: bool, inb: bool, inc: bool)
    requires ExactlyOne(ina, inb, inc)
    ensures a + b + c + multiset{x} == (a + One(ina, x)) + (b + One(inb, x)) + (c + One(inc, x))
  {
  }

  /** Three exclusive and exhaustive matchers split a list. */
  lemma {:induction false} Partition<X>(xs: seq<X>, p: X -> bool, q: X -> bool, r: X -> bool)
    requires forall i :: 0 <= i < |xs| ==> ExactlyOne(p(xs[i]), q(xs[i]), r(xs[i]))
    ensures multiset(xs) == multiset(Filter(xs, p)) + multiset(Filter(xs, q)) + multiset(Filter(xs, r))
    ensures |xs| == |Filter(xs, p)| + |Filter(xs, q)| + |Filter(xs, r)|
  {
    if xs != [] {
      var init, last := xs[..|xs| - 1], xs[|xs| - 1];
      Partition(init, p, q, r);
      hide Filter, One, ExactlyOne;
      assert xs == init + [last];
      assert ExactlyOne(p(last), q(last), r(last));
      FilterStep(init, last, p);
      FilterStep(init, last, q);
      FilterStep(init, last, r);
      AddOne(multiset(Filter(init, p)), multiset(Filter(init, q)), multiset(Filter(init, r)), last, p(last), q(last), r(last));
      OneMore(p(last), q(last), r(last));
    }
  }

  lemma OneMore(a: bool, b: bool, c: bool)
    requires ExactlyOne(a, b, c)
    ensures (if a then 1 else 0) + (if b then 1 else 0) + (if c then 1 else 0) == 1
  {
  }

  lemma AtMostOne<X>(xs: seq<X>, p: X -> bool)
    requires |Filter(xs, p)| <= 1
    ensures multiset(Filter(xs, p)) == Bag(First(xs, p))
    ensures First(xs, p).Some? <==> |Filter(xs, p)| == 1
  {
    if |Filter(xs, p)| == 1 {
      assert Filter(xs, p) == [First(xs, p).value];
    }
  }

  lemma {:induction false} FilterWithin<X>(xs: seq<X>, p: X -> bool)
    ensures multiset(Filter(xs, p)) <= multiset(xs)
  {
    if xs != [] {
      var init, last := xs[..|xs| - 1], xs[|xs| - 1];
      FilterWithin(init, p);
      hide Filter;
      FilterStep(init, last, p);
      assert xs == init + [last];
    }
  }

  lemma {:induction false} FilterFinds<X>(xs: seq<X>, p: X -> bool, x: X)
    requires x in xs && p(x)
    ensures x in Filter(xs, p)
  {
    var init, last := xs[..|xs| - 1], xs[|xs| - 1];
    if x == last {
      assert Filter(xs, p)[|Filter(init, p)|] == x;
    } else {
      assert xs == init + [last];
      FilterFinds(init, p, x);
    }
  }

  lemma TwiceCounted<X>(f: seq<X>, x: X)
    requires |f| >= 2 && f[0] == x && f[1] == x
    ensures multiset(f)[x] >= 2
  {
    assert f == [x, x] + f[2..];
  }

  lemma AllCounted<X>(f: seq<X>)
    ensures forall i :: 0 <= i < |f| ==> f[i] in multiset(f)
  {
  }

  /** The matches of p, when the list is a bag in which only x can match. */
  lemma FilterOfBag<X>(xs: seq<X>, p: X -> bool, x: Option<X>, others: multiset<X>)
    requires multiset(xs) == Bag(x) + others
    requires x.Some? ==> p(x.value)
    requires forall y :: y in others ==> !p(y)
    ensures Filter(xs, p) == if x.Some? then [x.value] else []
  {
    hide Filter;
    var f := Filter(xs, p);
    FilterWithin(xs, p);
    AllCounted(f);
    if x.Some? {
      assert forall i :: 0 <= i < |f| ==> f[i] == x.value;
      assert x.value in multiset(xs);
      FilterFinds(xs, p, x.value);
      if |f| >= 2 {
        TwiceCounted(f, x.value);
        assert false;
      }
    }
  }

  // ---------------------------------------------------------------- order reviews

  /** The trigger that closes what limit opens, at price px: nothing but the order id is free. */
  function ClosingTrigger(limit: OrderRequest, asset: u32, tpsl: Tpsl, px: Numeric, cloid: Option<Cloid>): OrderRequest {
    OrderRequest(asset, !limit.isBuy, px, limit.sz, true, Trigger(true, px, tpsl), cloid)
  }

  ghost predicate Closes(t: OrderRequest, limit: OrderRequest, tpsl: Tpsl) {
    t.kind.Trigger? && t == ClosingTrigger(limit, t.asset, tpsl, t.kind.triggerPx, t.cloid)
  }

  /** The list is one limit order, at most one take-profit and at most one stop-loss that close it, in any order. */
  ghost predicate IsBracket(orders: seq<OrderRequest>, limit: OrderRequest, tp: Option<OrderRequest>, sl: Option<OrderRequest>) {
    multiset(orders) == multiset{limit} + Bag(tp) + Bag(sl)
    && limit.kind.Limit? && limit.kind.tif != Alo
    && (tp.Some? ==> Closes(tp.value, limit, TakeProfit))
    && (sl.Some? ==> Closes(sl.value, limit, StopLoss))
  }

  /** An order review is accepted only for a bracket: there is no other order in the list. */
  lemma AcceptedOrderIsBracket(orders: seq<OrderRequest>, change: Option<LeverageChange>)
    requires OrderAccepted(orders, change)
    ensures IsBracket(orders, First(orders, IsLimit).value, First(orders, IsTp), First(orders, IsSl))
  {
    hide Filter;
    forall i | 0 <= i < |orders| ensures ExactlyOne(IsLimit(orders[i]), IsTp(orders[i]), IsSl(orders[i])) {
    }
    Partition(orders, IsLimit, IsTp, IsSl);
    AtMostOne(orders, IsLimit);
    AtMostOne(orders, IsTp);
    AtMostOne(orders, IsSl);
  }

  lemma BracketRoles(orders: seq<OrderRequest>, limit: OrderRequest, tp: Option<OrderRequest>, sl: Option<OrderRequest>)
    requires IsBracket(orders, limit, tp, sl)
    ensures |Filter(orders, IsLimit)| == 1 && First(orders, IsLimit) == Some(limit)
    ensures |Filter(orders, IsTp)| == (if tp.Some? then 1 else 0) && First(orders, IsTp) == tp
    ensures |Filter(orders, IsSl)| == (if sl.Some? then 1 else 0) && First(orders, IsSl) == sl
    ensures |orders| == 1 + (if tp.Some? then 1 else 0) + if sl.Some? then 1 else 0
  {
    hide Filter, Bag;
    var l := Bag(Some(limit));
    BagIs(limit);
    BagMembers(tp);
    BagMembers(sl);
    BagMembers(Some(limit));
    FilterOfBag(orders, IsLimit, Some(limit), Bag(tp) + Bag(sl));
    assert multiset(orders) == Bag(tp) + (l + Bag(sl));
    FilterOfBag(orders, IsTp, tp, l + Bag(sl));
    assert multiset(orders) == Bag(sl) + (l + Bag(tp));
    FilterOfBag(orders, IsSl, sl, l + Bag(tp));
    assert |orders| == |multiset(orders)|;
  }

  lemma BagIs<X>(x: X)
    ensures Bag(Some(x)) == multiset{x}
  {
  }

  lemma BagMembers<X>(x: Option<X>)
    ensures forall y :: y in Bag(x) <==> x == Some(y)
    ensures |Bag(x)| == if x.Some? then 1 else 0
  {
  }

  /** And it is accepted for every bracket, unless a leverage change to cross margin comes with it. */
  lemma BracketIsAccepted(orders: seq<OrderRequest>, change: Option<LeverageChange>, limit: OrderRequest,
                          tp: Option<OrderRequest>, sl: Option<OrderRequest>)
    requires IsBracket(orders, limit, tp, sl)
    ensures OrderAccepted(orders, change) <==> (change.Some? ==> !change.value.isCross)
  {
    hide Filter, First;
    BracketRoles(orders, limit, tp, sl);
  }

  /** Accepted order lists are exactly the brackets. */
  lemma OrderReviewExact(orders: seq<OrderRequest>, change: Option<LeverageChange>)
    ensures OrderAccepted(orders, change) <==>
            (change.Some? ==> !change.value.isCross) && exists limit, tp, sl :: IsBracket(orders, limit, tp, sl)
  {
    if OrderAccepted(orders, change) {
      AcceptedOrderIsBracket(orders, change);
    }
    if limit, tp, sl :| IsBracket(orders, limit, tp, sl) {
      BracketIsAccepted(orders, change, limit, tp, sl);
    }
  }

  // ---------------------------------------------------------------- what an order screen pins down

  /** A request without its client order id. */
  function Bare(o: OrderRequest): OrderRequest { o.(cloid := None) }

  predicate SameBare(a: Option<OrderRequest>, b: Option<OrderRequest>) {
    a.Some? == b.Some? && (a.Some? ==> Bare(a.value) == Bare(b.value))
  }

  /** What the screen leaves open about the limit order: which way it trades, and a market order's limit price. */
  predicate SameHidden(a: OrderRequest, b: OrderRequest) {
    a.isBuy == b.isBuy && (a.kind == Limit(Ioc) ==> a.limitPx == b.limitPx)
  }

  function Rank(p: Pair): nat {
    match p
    case Protocol => 0 case TestnetNotice => 1 case OrderOperation(_, _, _) => 2 case LimitPrice(_) => 3
    case MarginPair(_) => 4 case LeveragePair(_) => 5 case TakeProfitPrice(_) => 6 case StopLossPrice(_) => 7
    case Size(_, _) => 8 case ActivePosition(_, _) => 9 case TpOrderId(_) => 10 case SlOrderId(_) => 11
    case CancelOperation(_, _) => 12 case CancelledOrderId(_) => 13 case PositionToClose(_, _) => 14
    case NewMargin(_) => 15
  }

  ghost predicate Without(ps: seq<Pair>, rank: nat) {
    forall i :: 0 <= i < |ps| ==> Rank(ps[i]) != rank
  }

  ghost predicate AtMostOneOf(ps: seq<Pair>, rank: nat) {
    |ps| <= 1 && forall i :: 0 <= i < |ps| ==> Rank(ps[i]) == rank
  }

  /** An optional pair of a kind that does not come again can be read off the front. */
  lemma Peel(rank: nat, a: seq<Pair>, r: seq<Pair>, b: seq<Pair>, s: seq<Pair>)
    requires AtMostOneOf(a, rank) && AtMostOneOf(b, rank) && Without(r, rank) && Without(s, rank)
    requires a + r == b + s
    ensures a == b && r == s
  {
    HeadOf(a, r);
    HeadOf(b, s);
    SplitEqual(a, r, b, s);
  }

  lemma HeadOf(a: seq<Pair>, r: seq<Pair>)
    ensures |a| > 0 ==> (a + r)[0] == a[0]
    ensures |a| == 0 && |r| > 0 ==> (a + r)[0] == r[0]
  {
  }

  /** The parts of an order screen that depend on the orders. */
  datatype OrderParts = OrderParts(
    head: seq<Pair>, price: seq<Pair>, leverage: seq<Pair>, tp: seq<Pair>, sl: seq<Pair>, size: seq<Pair>)

  function PartsOf(meta: Metadata, orders: seq<OrderRequest>, change: Option<LeverageChange>): OrderParts
    requires OrderAccepted(orders, change)
  {
    var limit := First(orders, IsLimit).value;
    var market := limit.kind.tif == Ioc;
    var tp, sl := First(orders, IsTp), First(orders, IsSl);
    OrderParts(
      [OrderOperation(market, SpeaksOfLong(limit), meta.ticker)],
      if market then [] else [LimitPrice(limit.limitPx)],
      if change.Some? then [LeveragePair(change.value.leverage)] else [],
      if tp.Some? then [TakeProfitPrice(TriggerPx(tp.value))] else [],
      if sl.Some? then [StopLossPrice(TriggerPx(sl.value))] else [],
      [Size(limit.sz, meta.ticker)])
  }

  function Joined(p: OrderParts, margin: seq<Pair>): seq<Pair> {
    p.head + (p.price + (margin + (p.leverage + (p.tp + (p.sl + p.size)))))
  }

  ghost predicate Ranked(p: OrderParts) {
    AtMostOneOf(p.head, 2) && |p.head| == 1 && AtMostOneOf(p.price, 3) && AtMostOneOf(p.leverage, 5)
    && AtMostOneOf(p.tp, 6) && AtMostOneOf(p.sl, 7) && AtMostOneOf(p.size, 8)
  }

  lemma JoinedInjective(p: OrderParts, q: OrderParts, margin: seq<Pair>)
    requires Ranked(p) && Ranked(q) && AtMostOneOf(margin, 4) && Joined(p, margin) == Joined(q, margin)
    ensures p == q
  {
    hide Rank;
    var p5, q5 := p.sl + p.size, q.sl + q.size;
    var p4, q4 := p.tp + p5, q.tp + q5;
    var p3, q3 := p.leverage + p4, q.leverage + q4;
    var p2, q2 := margin + p3, margin + q3;
    SplitEqual(p.head, p.price + p2, q.head, q.price + q2);
    Peel(3, p.price, p2, q.price, q2);
    SplitEqual(margin, p3, margin, q3);
    Peel(5, p.leverage, p4, q.leverage, q4);
    Peel(6, p.tp, p5, q.tp, q5);
    Peel(7, p.sl, p.size, q.sl, q.size);
  }

  lemma Reassociate(a: seq<Pair>, b: seq<Pair>, c: seq<Pair>, d: seq<Pair>, e: seq<Pair>, f: seq<Pair>, g: seq<Pair>)
    ensures a + b + c + d + e + f + g == a + (b + (c + (d + (e + (f + g)))))
    ensures (a + b) + (c + d + e + f + g) == a + (b + (c + (d + (e + (f + g)))))
  {
    assert e + f + g == e + (f + g);
    assert a + b + c + d + (e + f + g) == a + b + (c + (d + (e + f + g)));
  }

  lemma PartsAreRanked(meta: Metadata, orders: seq<OrderRequest>, change: Option<LeverageChange>)
    requires OrderAccepted(orders, change)
    ensures Ranked(PartsOf(meta, orders, change)) && AtMostOneOf(MetaMargin(meta), 4)
  {
    hide Filter, First, OrderStructureOk, CheckTriggerMatchesLimit, SpeaksOfLong;
  }

  lemma ScreenIsJoined(meta: Metadata, orders: seq<OrderRequest>, change: Option<LeverageChange>)
    requires OrderAccepted(orders, change)
    ensures OrderScreen(meta, orders, change).pairs == Joined(PartsOf(meta, orders, change), MetaMargin(meta))
    ensures Ranked(PartsOf(meta, orders, change)) && AtMostOneOf(MetaMargin(meta), 4)
  {
    hide Filter, First, OrderStructureOk, CheckTriggerMatchesLimit, SpeaksOfLong, AtMostOneOf;
    PartsAreRanked(meta, orders, change);
    var p := PartsOf(meta, orders, change);
    Reassociate(p.head, p.price, MetaMargin(meta), p.leverage, p.tp, p.sl, p.size);
  }

  predicate AllOf(orders: seq<OrderRequest>, asset: u32) {
    forall i :: 0 <= i < |orders| ==> orders[i].asset == asset
  }

  lemma {:induction false} FilterIn<X>(xs: seq<X>, p: X -> bool)
    ensures forall i :: 0 <= i < |Filter(xs, p)| ==> Filter(xs, p)[i] in xs
  {
    if xs != [] {
      FilterIn(xs[..|xs| - 1], p);
    }
  }

  lemma FirstHasAsset(orders: seq<OrderRequest>, p: OrderRequest -> bool, asset: u32)
    requires AllOf(orders, asset) && First(orders, p).Some?
    ensures First(orders, p).value.asset == asset
  {
    FilterIn(orders, p);
    assert First(orders, p).value in orders;
  }

  /** From equal parts and an equal direction, equal limit orders. */
  lemma PartsDetermineLimit(meta: Metadata, asset: u32, orders: seq<OrderRequest>, change: Option<LeverageChange>,
                            orders': seq<OrderRequest>, change': Option<LeverageChange>)
    requires OrderAccepted(orders, change) && OrderAccepted(orders', change')
    requires AllOf(orders, asset) && AllOf(orders', asset)
    requires PartsOf(meta, orders, change) == PartsOf(meta, orders', change')
    requires SameHidden(First(orders, IsLimit).value, First(orders', IsLimit).value)
    ensures change == change'
    ensures SameBare(First(orders, IsLimit), First(orders', IsLimit))
  {
    FirstHasAsset(orders, IsLimit, asset);
    FirstHasAsset(orders', IsLimit, asset);
    hide Filter, First, OrderStructureOk, CheckTriggerMatchesLimit, AllOf;
    var p, q := PartsOf(meta, orders, change), PartsOf(meta, orders', change');
    assert p.head[0] == q.head[0] && p.size[0] == q.size[0];
    var l, l' := First(orders, IsLimit).value, First(orders', IsLimit).value;
    if l.kind.tif == Gtc {
      assert p.price[0] == q.price[0];
    }
    if change.Some? {
      assert p.leverage[0] == q.leverage[0];
    }
  }

  /** From an equal limit order and an equal shown price, an equal trigger. */
  lemma PriceDeterminesTrigger(t: OrderRequest, t': OrderRequest, limit: OrderRequest, limit': OrderRequest, tpsl: Tpsl)
    requires Closes(t, limit, tpsl) && Closes(t', limit', tpsl)
    requires Bare(limit) == Bare(limit') && t.asset == t'.asset && TriggerPx(t) == TriggerPx(t')
    ensures Bare(t) == Bare(t')
  {
    assert limit.isBuy == Bare(limit).isBuy && limit'.isBuy == Bare(limit').isBuy;
    assert limit.sz == Bare(limit).sz && limit'.sz == Bare(limit').sz;
  }

  /**
   Two accepted lists that look the same on the screen, for the same asset, hold the same orders up to client order
   ids, once the two things the screen leaves open about the limit order are the same.
   */
  lemma OrderScreenDetermines(meta: Metadata, asset: u32, orders: seq<OrderRequest>, change: Option<LeverageChange>,
                              orders': seq<OrderRequest>, change': Option<LeverageChange>)
    requires OrderAccepted(orders, change) && OrderAccepted(orders', change')
    requires AllOf(orders, asset) && AllOf(orders', asset)
    requires OrderScreen(meta, orders, change) == OrderScreen(meta, orders', change')
    requires SameHidden(First(orders, IsLimit).value, First(orders', IsLimit).value)
    ensures change == change'
    ensures SameBare(First(orders, IsLimit), First(orders', IsLimit))
    ensures SameBare(First(orders, IsTp), First(orders', IsTp)) && SameBare(First(orders, IsSl), First(orders', IsSl))
  {
    ScreenIsJoined(meta, orders, change);
    ScreenIsJoined(meta, orders', change');
    JoinedInjective(PartsOf(meta, orders, change), PartsOf(meta, orders', change'), MetaMargin(meta));
    PartsDetermineLimit(meta, asset, orders, change, orders', change');
    TriggersDetermined(meta, asset, orders, change, orders', change');
  }

  lemma TriggersDetermined(meta: Metadata, asset: u32, orders: seq<OrderRequest>, change: Option<LeverageChange>,
                           orders': seq<OrderRequest>, change': Option<LeverageChange>)
    requires OrderAccepted(orders, change) && OrderAccepted(orders', change')
    requires AllOf(orders, asset) && AllOf(orders', asset)
    requires PartsOf(meta, orders, change) == PartsOf(meta, orders', change')
    requires SameBare(First(orders, IsLimit), First(orders', IsLimit))
    ensures SameBare(First(orders, IsTp), First(orders', IsTp)) && SameBare(First(orders, IsSl), First(orders', IsSl))
  {
    AcceptedOrderIsBracket(orders, change);
    AcceptedOrderIsBracket(orders', change');
    var p, q := PartsOf(meta, orders, change), PartsOf(meta, orders', change');
    var tp, tp', sl, sl' := First(orders, IsTp), First(orders', IsTp), First(orders, IsSl), First(orders', IsSl);
    if tp.Some? {
      FirstHasAsset(orders, IsTp, asset);
    }
    if tp'.Some? {
      FirstHasAsset(orders', IsTp, asset);
    }
    if sl.Some? {
      FirstHasAsset(orders, IsSl, asset);
    }
    if sl'.Some? {
      FirstHasAsset(orders', IsSl, asset);
    }
    hide Filter, First, OrderStructureOk, CheckTriggerMatchesLimit, AllOf, Bare, Closes;
    var limit, limit' := First(orders, IsLimit).value, First(orders', IsLimit).value;
    assert tp.Some? <==> |p.tp| == 1;
    assert sl.Some? <==> |p.sl| == 1;
    if tp.Some? {
      assert p.tp[0] == q.tp[0];
      PriceDeterminesTrigger(tp.value, tp'.value, limit, limit', TakeProfit);
    }
    if sl.Some? {
      assert p.sl[0] == q.sl[0];
      PriceDeterminesTrigger(sl.value, sl'.value, limit, limit', StopLoss);
    }
  }

  /**
   The direction is really left open: a lone limit order and the one that trades the other way with the opposite
   reduce-only flag are accepted alike and look the same.
   */
  lemma DirectionIsNotShown(meta: Metadata, o: OrderRequest, change: Option<LeverageChange>)
    requires OrderAccepted([o], change)
    ensures var other := o.(isBuy := !o.isBuy, reduceOnly := !o.reduceOnly);
            OrderAccepted([other], change) && OrderScreen(meta, [other], change) == OrderScreen(meta, [o], change)
  {
    var other := o.(isBuy := !o.isBuy, reduceOnly := !o.reduceOnly);
    AcceptedOrderIsBracket([o], change);
    LoneBracket(o, change);
    LoneBracket(other, change);
  }

  /** Nor is a market order's limit price on the screen. */
  lemma MarketPriceIsNotShown(meta: Metadata, o: OrderRequest, px: Numeric, change: Option<LeverageChange>)
    requires OrderAccepted([o], change) && o.kind == Limit(Ioc)
    ensures var other := o.(limitPx := px);
            OrderAccepted([other], change) && OrderScreen(meta, [other], change) == OrderScreen(meta, [o], change)
  {
    var other := o.(limitPx := px);
    LoneBracket(o, change);
    LoneBracket(other, change);
    hide Filter, First;
  }

  lemma LoneBracket(o: OrderRequest, change: Option<LeverageChange>)
    requires o.kind.Limit? && o.kind.tif != Alo
    ensures OrderAccepted([o], change) <==> (change.Some? ==> !change.value.isCross)
    ensures First([o], IsLimit) == Some(o) && First([o], IsTp) == None && First([o], IsSl) == None
  {
    assert IsBracket([o], o, None, None);
    BracketIsAccepted([o], change, o, None, None);
    BracketRoles([o], o, None, None);
  }

  // ---------------------------------------------------------------- modify reviews

  /** A reduce-only market close whose hidden limit price is its trigger price. */
  ghost predicate IsMarketClose(o: OrderRequest, tpsl: Tpsl) {
    o.reduceOnly && o.kind == Trigger(true, o.limitPx, tpsl)
  }

  /** The list is the shown take-profit, the shown stop-loss, or both with one size: nothing else is in it. */
  ghost predicate IsTriggerPair(entries: seq<Entry>, tp: Option<Entry>, sl: Option<Entry>) {
    multiset(entries) == Bag(tp) + Bag(sl) && (tp.Some? || sl.Some?)
    && (tp.Some? ==> IsMarketClose(tp.value.order, TakeProfit))
    && (sl.Some? ==> IsMarketClose(sl.value.order, StopLoss))
    && (tp.Some? && sl.Some? ==> tp.value.order.sz == sl.value.order.sz)
  }

  lemma EntriesPartition(entries: seq<Entry>)
    ensures multiset(entries) == multiset(Filter(entries, EntryIsLimit)) + multiset(Filter(entries, EntryIsTp))
                                 + multiset(Filter(entries, EntryIsSl))
    ensures |entries| == |Filter(entries, EntryIsLimit)| + |Filter(entries, EntryIsTp)| + |Filter(entries, EntryIsSl)|
  {
    hide Filter;
    forall i | 0 <= i < |entries|
      ensures ExactlyOne(EntryIsLimit(entries[i]), EntryIsTp(entries[i]), EntryIsSl(entries[i])) {
    }
    Partition(entries, EntryIsLimit, EntryIsTp, EntryIsSl);
  }

  lemma AcceptedModifyIsPair(entries: seq<Entry>, isNew: bool)
    requires ModifyAccepted(entries, isNew)
    ensures IsTriggerPair(entries, First(entries, EntryIsTp), First(entries, EntryIsSl))
  {
    hide Filter, First, Bag;
    EntriesPartition(entries);
    AtMostOne(entries, EntryIsTp);
    AtMostOne(entries, EntryIsSl);
    assert Filter(entries, EntryIsLimit) == [];
  }

  lemma PairRoles(entries: seq<Entry>, tp: Option<Entry>, sl: Option<Entry>)
    requires IsTriggerPair(entries, tp, sl)
    ensures Filter(entries, EntryIsLimit) == []
    ensures |Filter(entries, EntryIsTp)| == (if tp.Some? then 1 else 0) && First(entries, EntryIsTp) == tp
    ensures |Filter(entries, EntryIsSl)| == (if sl.Some? then 1 else 0) && First(entries, EntryIsSl) == sl
    ensures |entries| == (if tp.Some? then 1 else 0) + if sl.Some? then 1 else 0
  {
    hide Filter, Bag;
    BagMembers(tp);
    BagMembers(sl);
    BagMembers<Entry>(None);
    assert multiset(entries) == Bag<Entry>(None) + (Bag(tp) + Bag(sl)) by { NoBag<Entry>(); }
    FilterOfBag(entries, EntryIsLimit, None, Bag(tp) + Bag(sl));
    FilterOfBag(entries, EntryIsTp, tp, Bag(sl));
    assert multiset(entries) == Bag(sl) + Bag(tp);
    FilterOfBag(entries, EntryIsSl, sl, Bag(tp));
    assert |entries| == |multiset(entries)|;
  }

  lemma NoBag<X>()
    ensures Bag<X>(None) == multiset{}
  {
  }

  /** Accepted modify lists, edits and new triggers alike, are exactly the trigger pairs. */
  lemma ModifyReviewExact(entries: seq<Entry>, isNew: bool)
    ensures ModifyAccepted(entries, isNew) <==> exists tp, sl :: IsTriggerPair(entries, tp, sl)
  {
    if ModifyAccepted(entries, isNew) {
      AcceptedModifyIsPair(entries, isNew);
    }
    if tp, sl :| IsTriggerPair(entries, tp, sl) {
      PairRoles(entries, tp, sl);
      hide Filter, First;
      assert ModifyAccepted(entries, isNew);
    }
  }

  /** One side of a modify screen: its price and, for an edit, its order id. */
  function SidePairs(e: Option<Entry>, tpsl: Tpsl): (seq<Pair>, seq<Pair>)
    requires e.Some? ==> e.value.order.kind.Trigger?
  {
    if e.None? then ([], [])
    else if tpsl == TakeProfit then
      ([TakeProfitPrice(TriggerPx(e.value.order))], OptPair(e.value.oid, i => TpOrderId(i)))
    else
      ([StopLossPrice(TriggerPx(e.value.order))], OptPair(e.value.oid, i => SlOrderId(i)))
  }

  function ShownSide(tp: Option<Entry>, sl: Option<Entry>): OrderRequest
    requires tp.Some? || sl.Some?
  {
    if tp.Some? then tp.value.order else sl.value.order
  }

  lemma ModifyScreenParts(meta: Metadata, entries: seq<Entry>, isNew: bool)
    requires ModifyAccepted(entries, isNew)
    ensures var tp, sl := First(entries, EntryIsTp), First(entries, EntryIsSl);
            var any, t, s := ShownSide(tp, sl), SidePairs(tp, TakeProfit), SidePairs(sl, StopLoss);
            ModifyScreen(meta, entries, isNew).pairs ==
            [ActivePosition(SpeaksOfLong(any), meta.ticker)]
            + ((MetaMargin(meta) + MetaLeverage(meta)) + ([Size(any.sz, meta.ticker)] + (t.0 + (t.1 + (s.0 + s.1)))))
  {
    hide Filter, First, ModifyStructureOk, SpeaksOfLong, CheckTriggerCloseOrder, OptPair;
    var tp, sl := First(entries, EntryIsTp), First(entries, EntryIsSl);
    var any, t, s := ShownSide(tp, sl), SidePairs(tp, TakeProfit), SidePairs(sl, StopLoss);
    var h, z := [ActivePosition(SpeaksOfLong(any), meta.ticker)], [Size(any.sz, meta.ticker)];
    assert TpPairs(tp) + SlPairs(sl) == t.0 + (t.1 + (s.0 + s.1));
    FourParts(h, MetaMargin(meta), MetaLeverage(meta), z, TpPairs(tp) + SlPairs(sl));
  }

  lemma FourParts(a: seq<Pair>, b: seq<Pair>, c: seq<Pair>, d: seq<Pair>, e: seq<Pair>)
    ensures a + b + c + d + e == a + ((b + c) + (d + e))
  {
  }

  /** Same presence, price and order id. */
  predicate SameSide(a: Option<Entry>, b: Option<Entry>)
    requires a.Some? ==> a.value.order.kind.Trigger?
    requires b.Some? ==> b.value.order.kind.Trigger?
  {
    a.Some? == b.Some? && (a.Some? ==> TriggerPx(a.value.order) == TriggerPx(b.value.order) && a.value.oid == b.value.oid)
  }

  lemma SideRanks(e: Option<Entry>, tpsl: Tpsl)
    requires e.Some? ==> e.value.order.kind.Trigger?
    ensures AtMostOneOf(SidePairs(e, tpsl).0, if tpsl == TakeProfit then 6 else 7)
    ensures AtMostOneOf(SidePairs(e, tpsl).1, if tpsl == TakeProfit then 10 else 11)
  {
  }

  lemma SidePairsInjective(a: Option<Entry>, b: Option<Entry>, tpsl: Tpsl)
    requires a.Some? ==> a.value.order.kind.Trigger?
    requires b.Some? ==> b.value.order.kind.Trigger?
    requires SidePairs(a, tpsl) == SidePairs(b, tpsl)
    ensures SameSide(a, b)
  {
    var s, t := SidePairs(a, tpsl), SidePairs(b, tpsl);
    if a.Some? {
      assert s.0[0] == t.0[0];
      if a.value.oid.Some? {
        assert s.1[0] == t.1[0];
      }
    }
  }

  lemma OtherRank(a: seq<Pair>, rank: nat, other: nat)
    requires AtMostOneOf(a, rank) && rank != other
    ensures Without(a, other)
  {
  }

  lemma WithoutBoth(a: seq<Pair>, b: seq<Pair>, rank: nat)
    requires Without(a, rank) && Without(b, rank)
    ensures Without(a + b, rank)
  {
  }

  /** What comes after a side's price: its order id and the other side. */
  lemma AfterPrice(id: seq<Pair>, px: seq<Pair>, other: seq<Pair>)
    requires AtMostOneOf(id, 10) && AtMostOneOf(px, 7) && AtMostOneOf(other, 11)
    ensures Without(px + other, 10) && Without(id + (px + other), 6) && Without(other, 7)
  {
    hide AtMostOneOf, Without;
    OtherRank(px, 7, 10);
    OtherRank(other, 11, 10);
    WithoutBoth(px, other, 10);
    OtherRank(id, 10, 6);
    OtherRank(px, 7, 6);
    OtherRank(other, 11, 6);
    WithoutBoth(px, other, 6);
    WithoutBoth(id, px + other, 6);
    OtherRank(other, 11, 7);
  }

  lemma SidesAgree(tp: Option<Entry>, sl: Option<Entry>, tp': Option<Entry>, sl': Option<Entry>)
    requires tp.Some? ==> tp.value.order.kind.Trigger?
    requires sl.Some? ==> sl.value.order.kind.Trigger?
    requires tp'.Some? ==> tp'.value.order.kind.Trigger?
    requires sl'.Some? ==> sl'.value.order.kind.Trigger?
    requires var t, s, t', s' := SidePairs(tp, TakeProfit), SidePairs(sl, StopLoss), SidePairs(tp', TakeProfit), SidePairs(sl', StopLoss);
             t.0 + (t.1 + (s.0 + s.1)) == t'.0 + (t'.1 + (s'.0 + s'.1))
    ensures SameSide(tp, tp') && SameSide(sl, sl')
  {
    SideRanks(tp, TakeProfit);
    SideRanks(tp', TakeProfit);
    SideRanks(sl, StopLoss);
    SideRanks(sl', StopLoss);
    hide AtMostOneOf, Without, SidePairs, SameSide;
    var t, s, t', s' := SidePairs(tp, TakeProfit), SidePairs(sl, StopLoss), SidePairs(tp', TakeProfit), SidePairs(sl', StopLoss);
    AfterPrice(t.1, s.0, s.1);
    AfterPrice(t'.1, s'.0, s'.1);
    Peel(6, t.0, t.1 + (s.0 + s.1), t'.0, t'.1 + (s'.0 + s'.1));
    Peel(10, t.1, s.0 + s.1, t'.1, s'.0 + s'.1);
    Peel(7, s.0, s.1, s'.0, s'.1);
    SidePairsInjective(tp, tp', TakeProfit);
    SidePairsInjective(sl, sl', StopLoss);
  }

  /** The request behind a side, up to its client order id and, when asked, its direction. */
  predicate SameTrigger(a: Option<Entry>, b: Option<Entry>, withDirection: bool) {
    a.Some? == b.Some? &&
    (a.Some? ==> a.value.oid == b.value.oid && (withDirection ==> a.value.order.isBuy == b.value.order.isBuy)
                 && Bare(a.value.order) == Bare(b.value.order).(isBuy := a.value.order.isBuy))
  }

  predicate AllEntriesOf(entries: seq<Entry>, asset: u32) {
    forall i :: 0 <= i < |entries| ==> entries[i].order.asset == asset
  }

  lemma FirstEntryHasAsset(entries: seq<Entry>, p: Entry -> bool, asset: u32)
    requires AllEntriesOf(entries, asset)
    ensures First(entries, p).Some? ==> First(entries, p).value.order.asset == asset
  {
    if First(entries, p).Some? {
      FilterIn(entries, p);
      assert First(entries, p).value in entries;
    }
  }

  /**
   Two accepted modify lists that look the same, for the same asset, hold the same requests up to client order ids,
   except that the direction of the stop-loss is pinned down only when it is alone.
   */
  lemma ModifyScreenDetermines(meta: Metadata, asset: u32, entries: seq<Entry>, entries': seq<Entry>, isNew: bool, isNew': bool)
    requires ModifyAccepted(entries, isNew) && ModifyAccepted(entries', isNew')
    requires AllEntriesOf(entries, asset) && AllEntriesOf(entries', asset)
    requires ModifyScreen(meta, entries, isNew) == ModifyScreen(meta, entries', isNew')
    ensures isNew == isNew'
    ensures SameTrigger(First(entries, EntryIsTp), First(entries', EntryIsTp), true)
    ensures SameTrigger(First(entries, EntryIsSl), First(entries', EntryIsSl), First(entries, EntryIsTp).None?)
  {
    ModifyScreenParts(meta, entries, isNew);
    ModifyScreenParts(meta, entries', isNew');
    AcceptedModifyIsPair(entries, isNew);
    AcceptedModifyIsPair(entries', isNew');
    FirstEntryHasAsset(entries, EntryIsTp, asset);
    FirstEntryHasAsset(entries', EntryIsTp, asset);
    FirstEntryHasAsset(entries, EntryIsSl, asset);
    FirstEntryHasAsset(entries', EntryIsSl, asset);
    hide Filter, First, ModifyStructureOk, MetaMargin, MetaLeverage, CheckTriggerCloseOrder, AllEntriesOf, SidePairs, ModifyScreen;
    var tp, sl, tp', sl' := First(entries, EntryIsTp), First(entries, EntryIsSl), First(entries', EntryIsTp), First(entries', EntryIsSl);
    var any, any' := ShownSide(tp, sl), ShownSide(tp', sl');
    var m := MetaMargin(meta) + MetaLeverage(meta);
    var t, s, t', s' := SidePairs(tp, TakeProfit), SidePairs(sl, StopLoss), SidePairs(tp', TakeProfit), SidePairs(sl', StopLoss);
    var tail, tail' := t.0 + (t.1 + (s.0 + s.1)), t'.0 + (t'.1 + (s'.0 + s'.1));
    var h, h' := [ActivePosition(SpeaksOfLong(any), meta.ticker)], [ActivePosition(SpeaksOfLong(any'), meta.ticker)];
    var z, z' := [Size(any.sz, meta.ticker)], [Size(any'.sz, meta.ticker)];
    SplitEqual(h, m + (z + tail), h', m + (z' + tail'));
    SplitEqual(m, z + tail, m, z' + tail');
    SplitEqual(z, tail, z', tail');
    assert h[0] == h'[0] && z[0] == z'[0];
    SidesAgree(tp, sl, tp', sl');
    ModifyIntent(meta, entries, isNew, entries', isNew');
  }

  lemma ModifyIntent(meta: Metadata, entries: seq<Entry>, isNew: bool, entries': seq<Entry>, isNew': bool)
    requires ModifyAccepted(entries, isNew) && ModifyAccepted(entries', isNew')
    requires ModifyScreen(meta, entries, isNew) == ModifyScreen(meta, entries', isNew')
    ensures isNew == isNew'
  {
    hide Filter, First, ModifyStructureOk, MetaMargin, MetaLeverage;
  }

  /** The direction of a stop-loss shown beside a take-profit is really left open. */
  lemma StopLossDirectionIsNotShown(meta: Metadata, tp: Entry, sl: Entry, isNew: bool)
    requires EntryIsTp(tp) && EntryIsSl(sl) && ModifyAccepted([tp, sl], isNew)
    ensures var other := sl.(order := sl.order.(isBuy := !sl.order.isBuy));
            ModifyAccepted([tp, other], isNew) && ModifyScreen(meta, [tp, other], isNew) == ModifyScreen(meta, [tp, sl], isNew)
  {
    var other := sl.(order := sl.order.(isBuy := !sl.order.isBuy));
    AcceptedModifyIsPair([tp, sl], isNew);
    PairOf(tp, sl);
    PairOf(tp, other);
    assert IsTriggerPair([tp, other], Some(tp), Some(other));
    PairRoles([tp, other], Some(tp), Some(other));
    hide Filter;
  }

  lemma PairOf(tp: Entry, sl: Entry)
    requires EntryIsTp(tp) && EntryIsSl(sl)
    ensures First([tp, sl], EntryIsTp) == Some(tp) && First([tp, sl], EntryIsSl) == Some(sl)
    ensures multiset([tp, sl]) == Bag(Some(tp)) + Bag(Some(sl))
  {
    assert [tp, sl] == [tp] + [sl] && [tp] == [] + [tp];
    TwoEntries(tp, sl, EntryIsTp);
    TwoEntries(tp, sl, EntryIsSl);
  }

  lemma TwoEntries(a: Entry, b: Entry, p: Entry -> bool)
    ensures Filter([a, b], p) == (if p(a) then [a] else []) + (if p(b) then [b] else [])
  {
    assert [a, b][..1] == [a];
    assert Filter([a], p) == Filter([a][..0], p) + if p(a) then [a] else [];
  }

  // ---------------------------------------------------------------- close, cancel and margin reviews

  ghost predicate IsLoneClose(orders: seq<OrderRequest>, o: OrderRequest) {
    orders == [o] && o.kind.Limit? && o.reduceOnly
  }

  /** A close review is accepted exactly for one reduce-only limit order. */
  lemma CloseReviewExact(orders: seq<OrderRequest>)
    ensures CloseAccepted(orders) <==> exists o :: IsLoneClose(orders, o)
  {
    if |orders| == 1 {
      FirstOfOne(orders[0], IsLimit);
      assert orders == [orders[0]];
      if CloseAccepted(orders) {
        assert IsLoneClose(orders, orders[0]);
      }
    }
  }

  lemma FirstOfOne<X>(x: X, p: X -> bool)
    ensures First([x], p) == if p(x) then Some(x) else None
  {
    assert [x] == [] + [x];
    assert Filter([x], p) == Filter([x][..0], p) + if p(x) then [x] else [];
  }

  /**
   A close screen fixes exactly the direction and the size: two accepted orders share it if and only if they agree
   on these, whatever their limit price, time in force and client id.
   */
  lemma CloseScreenDetermines(meta: Metadata, o: OrderRequest, o': OrderRequest)
    requires CloseAccepted([o]) && CloseAccepted([o'])
    ensures CloseScreen(meta, [o]) == CloseScreen(meta, [o']) <==> o.isBuy == o'.isBuy && o.sz == o'.sz
  {
    FirstOfOne(o, IsLimit);
    FirstOfOne(o', IsLimit);
    hide First;
    var s, s' := CloseScreen(meta, [o]), CloseScreen(meta, [o']);
    if s == s' {
      assert s.pairs[|s.pairs| - 1] == Size(o.sz, meta.ticker) && s'.pairs[|s'.pairs| - 1] == Size(o'.sz, meta.ticker);
      assert s.intent == ClosePosition(!o.isBuy) && s'.intent == ClosePosition(!o'.isBuy);
    }
  }


  /** Every cancelled order id is on the screen: for one asset, the screen gives the cancel list back. */
  lemma CancelScreenDetermines(meta: Metadata, asset: u32, cancels: seq<CancelRequest>, cancels': seq<CancelRequest>)
    requires forall i :: 0 <= i < |cancels| ==> cancels[i].asset == asset
    requires forall i :: 0 <= i < |cancels'| ==> cancels'[i].asset == asset
    requires CancelScreen(meta, cancels) == CancelScreen(meta, cancels')
    ensures cancels == cancels'
  {
    var head := [CancelOperation(TargetOf(meta.opType), meta.ticker)] + MetaMargin(meta) + MetaLeverage(meta);
    var ids := seq(|cancels|, i requires 0 <= i < |cancels| => CancelledOrderId(cancels[i].oid));
    var ids' := seq(|cancels'|, i requires 0 <= i < |cancels'| => CancelledOrderId(cancels'[i].oid));
    SplitEqual(head, ids, head, ids');
    forall i | 0 <= i < |cancels| ensures cancels[i] == cancels'[i] {
      assert ids[i] == ids'[i];
    }
  }

  /** The shown direction and magnitude give back the signed amount, for all 2^64 of them. */
  lemma MagnitudeReadsBack(ntli: i64)
    ensures ntli == if ntli < 0 then -(Magnitude(ntli) as int) else Magnitude(ntli)
    ensures Magnitude(ntli) <= 0x8000_0000_0000_0000
  {
  }

  /** A margin screen gives back everything but the asset, which is the metadata's. */
  lemma MarginScreenDetermines(meta: Metadata, isBuy: bool, ntli: i64, isBuy': bool, ntli': i64)
    requires MarginScreen(meta, isBuy, ntli) == MarginScreen(meta, isBuy', ntli')
    ensures isBuy == isBuy' && ntli == ntli'
  {
    hide Magnitude;
    var shown, shown' := MarginScreen(meta, isBuy, ntli).pairs, MarginScreen(meta, isBuy', ntli').pairs;
    assert shown[0] == shown'[0] && shown[1] == shown'[1];
    MagnitudeReadsBack(ntli);
    MagnitudeReadsBack(ntli');
  }

  // ---------------------------------------------------------------- what no screen shows

  /** Two lookups that differ at most in the grouping, builder and nonce of a bulk order. */
  predicate SameForReview(a: Option<Action>, b: Option<Action>) {
    a == b || (a.Some? && b.Some? && a.value.body.BulkOrder? && b.value.body.BulkOrder?
               && a.value.body.orders == b.value.body.orders)
  }

  lemma {:induction false} LookupIgnoresGrouping(actions: seq<Action>, i: nat, g: Grouping, b: Option<BuilderInfo>,
                                                 n: u64, t: ActionType)
    requires i < |actions| && actions[i].body.BulkOrder?
    ensures SameForReview(Lookup(actions, t), Lookup(actions[i := Regrouped(actions[i], g, b, n)], t))
  {
    var other := actions[i := Regrouped(actions[i], g, b, n)];
    if i == 0 {
      assert other[1..] == actions[1..];
    } else {
      assert other[1..] == actions[1..][i - 1 := Regrouped(actions[i], g, b, n)];
      LookupIgnoresGrouping(actions[1..], i - 1, g, b, n, t);
    }
  }

  /** A bulk order with the same orders under another grouping, builder and nonce. */
  function Regrouped(a: Action, g: Grouping, b: Option<BuilderInfo>, n: u64): Action
    requires a.body.BulkOrder?
  {
    Action(BulkOrder(a.body.orders, g, b), n)
  }

  /** The grouping, the builder with its fee, and the nonce of a bulk order are signed, and no review depends on them. */
  lemma GroupingAndBuilderAreNotShown(meta: Metadata, actions: seq<Action>, i: nat, g: Grouping,
                                      b: Option<BuilderInfo>, n: u64)
    requires i < |actions| && actions[i].body.BulkOrder?
    ensures FullScreen(meta, actions[i := Regrouped(actions[i], g, b, n)]) == FullScreen(meta, actions)
  {
    hide Lookup, Regrouped, OrderAccepted, ModifyAccepted, CloseAccepted, CancelAccepted, OrderScreen, ModifyScreen,
         CloseScreen, CancelScreen, MarginScreen, EditEntries, OrderEntries, Opening;
    LookupIgnoresGrouping(actions, i, g, b, n, TBulkOrder);
    LookupIgnoresGrouping(actions, i, g, b, n, TBulkModify);
    LookupIgnoresGrouping(actions, i, g, b, n, TBulkCancel);
    LookupIgnoresGrouping(actions, i, g, b, n, TUpdateLeverage);
    LookupIgnoresGrouping(actions, i, g, b, n, TUpdateIsolatedMargin);
  }
}
