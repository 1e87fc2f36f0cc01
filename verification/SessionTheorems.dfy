/** What the session promises over whole runs. */
module SessionTheorems {
  import opened Bytes
  import opened Model
  import opened Review
  import opened ReviewProofs
  import opened Screens
  import opened Session
  import opened SessionProofs

  // ---------------------------------------------------------------- signatures follow reviews

  /** The output at k is the signature of action n of the bundle, the last of an exchange. */
  ghost predicate IsSignatureOf(env: Env, trace: seq<Output>, k: nat, b: Bundle, screen: Screen, n: nat) {
    k < |trace| && n < |b.actions| && trace[k] == Signed(MessageAt(env, b, n))
    && Justifies(env, trace, k + 1, b, screen, n + 1)
  }

  /**
   Every signature of every run ends an exchange: the review of a list of actions the device held, its approval, and
   the signatures of the first actions of that list, in order, each under the path and address of the review.
   */
  lemma SignaturesFollowReview(env: Env, events: seq<Event>, k: nat)
    requires var trace := Run(env, events).1; k < |trace| && trace[k].Signed?
    ensures exists b, screen, n: nat :: IsSignatureOf(env, Run(env, events).1, k, b, screen, n)
  {
    hide Run, Honest, Ends, Exchange, Inv, Justifies;
    RunKeeps(env, events);
    var trace := Run(env, events).1;
    InvParts(env, Run(env, events).0, trace);
    assert Justified(env, trace, k + 1);
    var b, screen, n: nat :| Justifies(env, trace, k + 1, b, screen, n);
    LastOfExchange(env, trace, k, b, screen, n);
    assert IsSignatureOf(env, trace, k, b, screen, n - 1);
  }

  /** The last signature of an exchange is of the last action counted. */
  lemma LastOfExchange(env: Env, trace: seq<Output>, k: nat, b: Bundle, screen: Screen, n: nat)
    requires k < |trace| && trace[k].Signed? && Justifies(env, trace, k + 1, b, screen, n)
    ensures 1 <= n <= |b.actions| && trace[k] == Signed(MessageAt(env, b, n - 1))
  {
    hide Honest, MessageAt;
    var part := Exchange(env, b, screen, n);
    assert trace[k + 1 - |part|..k + 1][|part| - 1] == trace[k];
  }

  lemma {:induction false} ReleasedAt(env: Env, b: Bundle, n: nat, i: nat)
    requires i < n <= |b.actions|
    ensures Released(env, b, n)[i] == Signed(MessageAt(env, b, i))
  {
    hide MessageAt;
    if i < n - 1 { ReleasedAt(env, b, n - 1, i); }
  }

  lemma ExchangeAt(env: Env, trace: seq<Output>, k: nat, b: Bundle, screen: Screen, n: nat, i: nat)
    requires Justifies(env, trace, k, b, screen, n) && i < n
    ensures n + 2 <= k <= |trace| && trace[k - n - 2] == Opened(b, screen) && trace[k - n - 1] == Approved
    ensures trace[k - n + i] == Signed(MessageAt(env, b, i))
  {
    hide Honest, MessageAt;
    var part := Exchange(env, b, screen, n);
    var window := trace[k - |part|..k];
    ReleasedAt(env, b, n, i);
    assert window[0] == part[0] && window[1] == part[1] && window[2 + i] == part[2 + i];
    assert part[2 + i] == Released(env, b, n)[i];
  }

  lemma HonestDistinct(env: Env, b: Bundle, screen: Screen)
    requires Honest(env, b, screen)
    ensures DistinctTypes(b.actions)
  {
    hide FullScreen, Stored, SignedByKey;
  }

  /** With no approval in between, an earlier signature is of an earlier action of the same exchange. */
  lemma EarlierInExchange(env: Env, trace: seq<Output>, i: nat, k: nat, b: Bundle, screen: Screen, n: nat)
    requires IsSignatureOf(env, trace, k, b, screen, n)
    requires i < k && trace[i].Signed? && forall j :: i < j < k ==> trace[j] != Approved
    ensures k - n <= i && trace[i] == Signed(MessageAt(env, b, i - (k - n)))
  {
    hide Honest, MessageAt;
    ExchangeAt(env, trace, k + 1, b, screen, n + 1, 0);
    assert k - n <= i;
    ExchangeAt(env, trace, k + 1, b, screen, n + 1, i - (k - n));
  }

  /** Under one approval no action, and no action type, is signed twice. */
  lemma NothingSignedTwice(env: Env, events: seq<Event>, i: nat, k: nat)
    requires var trace := Run(env, events).1;
             i < k < |trace| && trace[i].Signed? && trace[k].Signed?
             && forall j :: i < j < k ==> trace[j] != Approved
    ensures var trace := Run(env, events).1;
            TypeOf(trace[i].message.action.body) != TypeOf(trace[k].message.action.body)
  {
    hide Run, Ends, Honest, TypeOf;
    var trace := Run(env, events).1;
    SignaturesFollowReview(env, events, k);
    var b, screen, n: nat :| IsSignatureOf(env, trace, k, b, screen, n);
    EarlierInExchange(env, trace, i, k, b, screen, n);
    HonestDistinct(env, b, screen);
  }

  // ---------------------------------------------------------------- what was on the screen

  /** The opening pairs, then a review's own. */
  function Behind(meta: Metadata, s: Screen): Screen {
    Screen(Opening(meta) + s.pairs, s.intent)
  }

  /**
   How an action of a reviewed list is accounted for on its screen. Fee approvals and abstraction changes are signed
   silently, by design of the application; so are the grouping and the builder of a bulk order, which no screen
   depends on.
   */
  ghost predicate Accounted(meta: Metadata, actions: seq<Action>, body: Body, screen: Screen) {
    match body
    case BulkOrder(orders, _, _) =>
      (match meta.opType
       case OpOrder => IsOrderList(orders) && OrderAccepted(orders, LeverageChangeOf(actions))
                       && screen == Behind(meta, OrderScreen(meta, orders, LeverageChangeOf(actions)))
       case OpClose => CloseAccepted(orders) && screen == Behind(meta, CloseScreen(meta, orders))
       case OpModify => var entries := OrderEntries(orders);
                        IsModifyList(entries) && ModifyAccepted(entries, true)
                        && screen == Behind(meta, ModifyScreen(meta, entries, true))
       case _ => false)
    case BulkModify(edits) =>
      var entries := EditEntries(edits);
      meta.opType.OpModify? && IsModifyList(entries) && ModifyAccepted(entries, false)
      && screen == Behind(meta, ModifyScreen(meta, entries, false))
    case BulkCancel(cancels) =>
      CancelAccepted(meta.opType, cancels) && screen == Behind(meta, CancelScreen(meta, cancels))
    case UpdateLeverage(_, isCross, leverage) =>
      meta.opType.OpOrder? && !isCross && LeverageChangeOf(actions) == Some(LeverageChange(false, leverage))
      && LeveragePair(leverage) in screen.pairs
    case UpdateIsolatedMargin(_, isBuy, ntli) =>
      meta.opType.OpUpdateMargin? && screen == Behind(meta, MarginScreen(meta, isBuy, ntli))
    case ApproveBuilderFee(_, _, _) => meta.opType.OpOrder?
    case UserSetAbstraction(_, _) => meta.opType.OpOrder?
  }

  /** The review looks actions up by type, signing walks them by index: still each signed action was the one shown. */
  lemma ReviewedIsAccounted(env: Env, b: Bundle, screen: Screen, i: nat)
    requires Honest(env, b, screen) && i < |b.actions|
    ensures Accounted(b.metadata, b.actions, b.actions[i].body, screen)
  {
    hide SignedByKey, OrderAccepted, ModifyAccepted, IsBracket, IsTriggerPair, CloseAccepted, OrderScreen,
         ModifyScreen, CloseScreen, CancelScreen, MarginScreen, Lookup, EditEntries, OrderEntries, Opening;
    var meta, actions := b.metadata, b.actions;
    var a := actions[i];
    LookupIsWalk(actions, i);
    assert Stored(a, meta);
    match meta.opType {
      case OpOrder => OrderReviewed(meta, actions);
      case OpModify => ModifyReviewed(meta, actions, a);
      case _ =>
    }
  }

  /** No signature of any run is of an action that its approved screen does not account for. */
  lemma EverySignatureIsAccounted(env: Env, events: seq<Event>, k: nat)
    requires var trace := Run(env, events).1; k < |trace| && trace[k].Signed?
    ensures var trace := Run(env, events).1;
            exists b, screen, n: nat :: IsSignatureOf(env, trace, k, b, screen, n)
              && Accounted(b.metadata, b.actions, trace[k].message.action.body, screen)
  {
    hide Run, Honest, Ends, Exchange, Accounted;
    SignaturesFollowReview(env, events, k);
    var b, screen, n: nat :| IsSignatureOf(env, Run(env, events).1, k, b, screen, n);
    ReviewedIsAccounted(env, b, screen, n);
  }

  lemma OrderReviewed(meta: Metadata, actions: seq<Action>)
    requires meta.opType.OpOrder? && FullScreen(meta, actions).Some?
    ensures var change, order := LeverageChangeOf(actions), Lookup(actions, TBulkOrder);
            order.Some? && IsOrderList(order.value.body.orders)
            && (change.Some? ==> !change.value.isCross
                                 && LeveragePair(change.value.leverage) in FullScreen(meta, actions).value.pairs)
  {
    hide Lookup, OrderScreen, OrderAccepted;
    var order, change := Lookup(actions, TBulkOrder).value, LeverageChangeOf(actions);
    OrderReviewExact(order.body.orders, change);
    if change.Some? {
      LeverageIsShown(meta, order.body.orders, change);
    }
  }

  lemma LeverageIsShown(meta: Metadata, orders: seq<OrderRequest>, change: Option<LeverageChange>)
    requires OrderAccepted(orders, change) && change.Some?
    ensures LeveragePair(change.value.leverage) in OrderScreen(meta, orders, change).pairs
  {
    hide First, OrderStructureOk, SpeaksOfLong;
    ScreenIsJoined(meta, orders, change);
    var p := PartsOf(meta, orders, change);
    assert LeveragePair(change.value.leverage) == p.leverage[0];
  }

  /** The entries a modify review works on when an action is the only one stored. */
  function EntriesOf(body: Body): Option<(seq<Entry>, bool)> {
    match body
    case BulkModify(edits) => Some((EditEntries(edits), false))
    case BulkOrder(orders, _, _) => Some((OrderEntries(orders), true))
    case _ => None
  }

  lemma ModifyReviewed(meta: Metadata, actions: seq<Action>, a: Action)
    requires meta.opType.OpModify? && FullScreen(meta, actions).Some? && ValidList(meta, actions) && a in actions
    ensures ModifyTarget(actions) == EntriesOf(a.body)
    ensures EntriesOf(a.body).Some? && IsModifyList(EntriesOf(a.body).value.0)
  {
    hide OrderScreen, ModifyScreen, ModifyAccepted, EditEntries, OrderEntries;
    assert actions == [a];
    assert Stored(a, meta);
    var (entries, isNew) := ModifyTarget(actions).value;
    ModifyReviewExact(entries, isNew);
  }
}
