/** The set-action structure with its seven kinds of payload, and the signed metadata structure. */
module ActionParser {
  import opened Bytes
  import opened Model
  import opened Tlv
  import opened Parsers

  // ---------------------------------------------------------------- flat payloads

  datatype LeverageDraft = LeverageDraft(asset: Option<u32>, isCross: Option<bool>, leverage: Option<u32>)

  function HandleLeverage(f: Field, d: LeverageDraft): Option<LeverageDraft> {
    match f.tag
    case 0xd1 => var n :- GetU32(f.value); Some(d.(asset := Some(n)))
    case 0xde => var b :- GetBool(f.value); Some(d.(isCross := Some(b)))
    case _ => var n :- GetU32(f.value); Some(d.(leverage := Some(n)))
  }

  const LEVERAGE_SPEC := Spec(map[0xd1 := true, 0xde := true, 0xed := true], HandleLeverage)

  function ParseLeverage(bs: seq<byte>, metaAsset: u32): Option<Body> {
    var d :- RunTlv(LEVERAGE_SPEC, bs, {}, LeverageDraft(None, None, None));
    var asset :- d.asset;
    var isCross :- d.isCross;
    var leverage :- d.leverage;
    if asset != metaAsset then None else Some(UpdateLeverage(asset, isCross, leverage))
  }

  datatype FeeDraft = FeeDraft(chainId: Option<u64>, rate: Option<Numeric>, builder: Option<Address>)

  function HandleFee(f: Field, d: FeeDraft): Option<FeeDraft> {
    match f.tag
    case 0x23 => var n :- GetU64(f.value); Some(d.(chainId := Some(n)))
    case 0xb0 => var s :- GetText(f.value, NUMERIC_STRING_LENGTH); Some(d.(rate := Some(s)))
    case _ => var a :- GetBuffer(f.value, ADDRESS_LENGTH); Some(d.(builder := Some(a)))
  }

  const FEE_SPEC := Spec(map[0x23 := true, 0xb0 := true, 0xd3 := true], HandleFee)

  function ParseFee(bs: seq<byte>): Option<Body> {
    var d :- RunTlv(FEE_SPEC, bs, {}, FeeDraft(None, None, None));
    var chainId :- d.chainId;
    var rate :- d.rate;
    var builder :- d.builder;
    Some(ApproveBuilderFee(chainId, rate, builder))
  }

  datatype MarginDraft = MarginDraft(asset: Option<u32>, isBuy: Option<bool>, ntli: Option<i64>)

  /** The margin amount is read as an unsigned word whose bits are then taken as a signed one. */
  function HandleMargin(f: Field, d: MarginDraft): Option<MarginDraft> {
    match f.tag
    case 0xd1 => var n :- GetU32(f.value); Some(d.(asset := Some(n)))
    case 0xe2 => var b :- GetBool(f.value); Some(d.(isBuy := Some(b)))
    case _ => var n :- GetU64(f.value); Some(d.(ntli := Some(ToSigned(n))))
  }

  const MARGIN_SPEC := Spec(map[0xd1 := true, 0xe2 := true, 0xd6 := true], HandleMargin)

  function ParseMargin(bs: seq<byte>, metaAsset: u32): Option<Body> {
    var d :- RunTlv(MARGIN_SPEC, bs, {}, MarginDraft(None, None, None));
    var asset :- d.asset;
    var isBuy :- d.isBuy;
    var ntli :- d.ntli;
    if asset != metaAsset then None else Some(UpdateIsolatedMargin(asset, isBuy, ntli))
  }

  function AbstractionOf(n: nat): Option<Abstraction> {
    match n case 0 => Some(Disabled) case 1 => Some(UnifiedAccount) case 2 => Some(PortfolioMargin) case _ => None
  }

  function AbstractionCode(a: Abstraction): byte {
    match a case Disabled => 0 case UnifiedAccount => 1 case PortfolioMargin => 2
  }

  datatype AbstractionDraft = AbstractionDraft(chainId: Option<u64>, code: Option<nat>)

  function HandleAbstraction(f: Field, d: AbstractionDraft): Option<AbstractionDraft> {
    match f.tag
    case 0x23 => var n :- GetU64(f.value); Some(d.(chainId := Some(n)))
    case _ => var n :- GetCode(f.value); Some(d.(code := Some(n)))
  }

  const ABSTRACTION_SPEC := Spec(map[0x23 := true, 0xdf := true], HandleAbstraction)

  /** The abstraction code is only checked once the whole structure is read. */
  function ParseAbstraction(bs: seq<byte>): Option<Body> {
    var d :- RunTlv(ABSTRACTION_SPEC, bs, {}, AbstractionDraft(None, None));
    var chainId :- d.chainId;
    var code :- d.code;
    var abstraction :- AbstractionOf(code);
    Some(UserSetAbstraction(chainId, abstraction))
  }

  // ---------------------------------------------------------------- set action

  function ActionTypeOf(n: nat): Option<ActionType> {
    match n
    case 0 => Some(TBulkOrder) case 1 => Some(TBulkModify) case 2 => Some(TBulkCancel) case 3 => Some(TUpdateLeverage)
    case 4 => Some(TApproveBuilderFee) case 5 => Some(TUpdateIsolatedMargin) case 6 => Some(TUserSetAbstraction)
    case _ => None
  }

  function ActionTypeCode(t: ActionType): byte {
    match t
    case TBulkOrder => 0 case TBulkModify => 1 case TBulkCancel => 2 case TUpdateLeverage => 3
    case TApproveBuilderFee => 4 case TUpdateIsolatedMargin => 5 case TUserSetAbstraction => 6
  }

  function ParseBody(t: ActionType, bs: seq<byte>, metaAsset: u32): Option<Body> {
    match t
    case TBulkOrder => ParseBulkOrder(bs, metaAsset)
    case TBulkModify => ParseBulkModify(bs, metaAsset)
    case TBulkCancel => ParseBulkCancel(bs, metaAsset)
    case TUpdateLeverage => ParseLeverage(bs, metaAsset)
    case TApproveBuilderFee => ParseFee(bs)
    case TUpdateIsolatedMargin => ParseMargin(bs, metaAsset)
    case TUserSetAbstraction => ParseAbstraction(bs)
  }

  datatype ActionDraft = ActionDraft(
    metaAsset: u32, structType: bool, version: bool, actionType: Option<ActionType>, nonce: Option<u64>,
    body: Option<Body>)

  function HandleAction(f: Field, d: ActionDraft): Option<ActionDraft> {
    match f.tag
    case 0x01 => var n :- GetCode(f.value); if n == 0x2c then Some(d.(structType := true)) else None
    case 0x02 => var n :- GetCode(f.value); if n == 1 then Some(d.(version := true)) else None
    case 0xd0 => var n :- GetCode(f.value); var t :- ActionTypeOf(n); Some(d.(actionType := Some(t)))
    case 0xda => var n :- GetU64(f.value); Some(d.(nonce := Some(n)))
    case _ =>
      var t :- d.actionType;
      var b :- ParseBody(t, f.value, d.metaAsset);
      Some(d.(body := Some(b)))
  }

  const ACTION_SPEC := Spec(map[0x01 := true, 0x02 := true, 0xd0 := true, 0xda := true, 0xdb := true], HandleAction)

  function NoAction(metaAsset: u32): ActionDraft {
    ActionDraft(metaAsset, false, false, None, None, None)
  }

  /** parse_action up to the compatibility check: the structure, complete, against the metadata's asset. */
  function ParseAction(bs: seq<byte>, metaAsset: u32): Option<Action> {
    var d :- RunTlv(ACTION_SPEC, bs, {}, NoAction(metaAsset));
    var t :- d.actionType;
    var nonce :- d.nonce;
    var body :- d.body;
    if d.structType && d.version then Some(Action(body, nonce)) else None
  }

  // ---------------------------------------------------------------- what an accepted action satisfies

  lemma ParsedBodyIsSound(t: ActionType, bs: seq<byte>, metaAsset: u32)
    requires ParseBody(t, bs, metaAsset).Some?
    ensures var b := ParseBody(t, bs, metaAsset).value;
            TypeOf(b) == t && AssetsAre(b, metaAsset) && NonEmptyBatch(b)
  {
    hide RunTlv, ParseOrder, ParseModify, ParseCancel;
    match t
    case TBulkOrder =>
      BulkOrderIsMap(bs, metaAsset);
      var orders, vs := ParseBulkOrder(bs, metaAsset).value.orders, Repeated(bs, 0xdd);
      forall i | 0 <= i < |orders| ensures orders[i].asset == metaAsset {
        assert ParseOrder(vs[i], metaAsset) == Some(orders[i]);
        ParsedOrderAsset(vs[i], metaAsset);
      }
    case TBulkModify =>
      BulkModifyIsMap(bs, metaAsset);
      var edits, vs := ParseBulkModify(bs, metaAsset).value.edits, Repeated(bs, 0xd8);
      forall i | 0 <= i < |edits| ensures edits[i].order.asset == metaAsset {
        assert ParseModify(vs[i], metaAsset) == Some(edits[i]);
        ParsedModifyAsset(vs[i], metaAsset);
      }
    case TBulkCancel =>
      BulkCancelIsMap(bs, metaAsset);
      var cancels, vs := ParseBulkCancel(bs, metaAsset).value.cancels, Repeated(bs, 0xd9);
      forall i | 0 <= i < |cancels| ensures cancels[i].asset == metaAsset {
        assert ParseCancel(vs[i], metaAsset) == Some(cancels[i]);
        ParsedCancelAsset(vs[i], metaAsset);
      }
    case _ =>
  }

  lemma ParsedOrderAsset(bs: seq<byte>, metaAsset: u32)
    requires ParseOrder(bs, metaAsset).Some?
    ensures ParseOrder(bs, metaAsset).value.asset == metaAsset
  {
    hide RunTlv;
  }

  lemma ParsedCancelAsset(bs: seq<byte>, metaAsset: u32)
    requires ParseCancel(bs, metaAsset).Some?
    ensures ParseCancel(bs, metaAsset).value.asset == metaAsset
  {
    hide RunTlv;
  }

  ghost predicate ModifyAssetKept(received: set<nat>, d: ModifyDraft, metaAsset: u32) {
    d.metaAsset == metaAsset && (d.order.Some? ==> d.order.value.asset == metaAsset)
  }

  lemma ParsedModifyAsset(bs: seq<byte>, metaAsset: u32)
    requires ParseModify(bs, metaAsset).Some?
    ensures ParseModify(bs, metaAsset).value.order.asset == metaAsset
  {
    hide ParseOrder, RunTlv, GetUint;
    var inv := (received, d) => ModifyAssetKept(received, d, metaAsset);
    forall rec, d, f: Field, next |
      inv(rec, d) && Admits(MODIFY_SPEC, rec, f.tag) && MODIFY_SPEC.handle(f, d) == Some(next)
      ensures inv(rec + {f.tag}, next)
    {
      if f.tag == 0xdd {
        ParsedOrderAsset(f.value, metaAsset);
      }
    }
    RunKeeps(MODIFY_SPEC, inv, bs, {}, ModifyDraft(metaAsset, None, None));
  }

  ghost predicate BodySound(received: set<nat>, d: ActionDraft, metaAsset: u32) {
    d.metaAsset == metaAsset && (0xd0 in received <==> d.actionType.Some?) &&
    (d.body.Some? ==> d.actionType == Some(TypeOf(d.body.value)) && AssetsAre(d.body.value, metaAsset)
                      && NonEmptyBatch(d.body.value))
  }

  lemma ActionStepKeepsSound(rec: set<nat>, d: ActionDraft, f: Field, metaAsset: u32)
    requires BodySound(rec, d, metaAsset) && Admits(ACTION_SPEC, rec, f.tag) && HandleAction(f, d).Some?
    ensures BodySound(rec + {f.tag}, HandleAction(f, d).value, metaAsset)
  {
    hide ParseBody, GetUint, AssetsAre, NonEmptyBatch, TypeOf;
    if f.tag == 0xdb {
      ParsedBodyIsSound(d.actionType.value, f.value, metaAsset);
    }
  }

  /**
   Whatever bytes are accepted: every asset in the action is the metadata's, every list has 1 to 5 requests, and the
   variant that was read is the one the final type tag names.
   */
  lemma ParsedActionIsSound(bs: seq<byte>, metaAsset: u32)
    requires ParseAction(bs, metaAsset).Some?
    ensures var a := ParseAction(bs, metaAsset).value;
            AssetsAre(a.body, metaAsset) && NonEmptyBatch(a.body)
            && RunTlv(ACTION_SPEC, bs, {}, NoAction(metaAsset)).value.actionType == Some(TypeOf(a.body))
  {
    hide HandleAction, AssetsAre, NonEmptyBatch, TypeOf, RunTlv;
    var inv := (received, d) => BodySound(received, d, metaAsset);
    forall rec, d, f: Field, next |
      inv(rec, d) && Admits(ACTION_SPEC, rec, f.tag) && ACTION_SPEC.handle(f, d) == Some(next)
      ensures inv(rec + {f.tag}, next)
    {
      ActionStepKeepsSound(rec, d, f, metaAsset);
    }
    RunKeeps(ACTION_SPEC, inv, bs, {}, NoAction(metaAsset));
  }

  // ---------------------------------------------------------------- printing

  function BuilderPart(b: Option<BuilderInfo>): seq<Item> {
    if b.Some? then [(0xeb, PrintBuilder(b.value))] else []
  }

  function OrderItem(o: OrderRequest): Item { (0xdd, PrintOrder(o)) }

  function ModifyItem(m: ModifyRequest): Item { (0xd8, PrintModify(m)) }

  function CancelItem(c: CancelRequest): Item { (0xd9, PrintCancel(c)) }

  function ListItems<X>(item: X -> Item, xs: seq<X>): (r: seq<Item>)
    ensures |r| == |xs| && forall i :: 0 <= i < |xs| ==> r[i] == item(xs[i])
  {
    seq(|xs|, i requires 0 <= i < |xs| => item(xs[i]))
  }

  /** The fields of each payload, as the client's serialize methods list them. */
  function BodyItems(b: Body): seq<Item> {
    match b
    case BulkOrder(orders, grouping, builder) =>
      ListItems(OrderItem, orders) + ([(0xea, PrintCode(GroupingCode(grouping)))] + BuilderPart(builder))
    case BulkModify(edits) => ListItems(ModifyItem, edits)
    case BulkCancel(cancels) => ListItems(CancelItem, cancels)
    case UpdateLeverage(asset, isCross, leverage) =>
      [(0xd1, PrintU32(asset)), (0xde, PrintFlag(isCross)), (0xed, PrintU32(leverage))]
    case ApproveBuilderFee(chainId, rate, builder) =>
      [(0x23, PrintU64(chainId)), (0xb0, rate), (0xd3, builder)]
    case UpdateIsolatedMargin(asset, isBuy, ntli) =>
      [(0xd1, PrintU32(asset)), (0xe2, PrintFlag(isBuy)), (0xd6, BE(ToUnsigned(ntli), 8))]
    case UserSetAbstraction(chainId, abstraction) =>
      [(0x23, PrintU64(chainId)), (0xdf, PrintCode(AbstractionCode(abstraction)))]
  }

  /** totals for a list of at most five fields of the same size bound. */
  lemma ListItemsSize<X>(item: X -> Item, xs: Batch<X>, max: nat)
    requires max < 0x1_0000
    requires forall x :: item(x).0 < 0x100 && |item(x).1| <= max
    ensures |PrintItems(ListItems(item, xs))| <= |xs| * (max + 4) + if max < 0x100 then 0 else |xs|
  {
    hide PrintItems;
    var step := if max < 0x100 then max + 4 else max + 5;
    var totals := seq(|xs| + 1, i requires 0 <= i <= |xs| => i * step);
    forall i | 0 <= i < |xs| ensures totals[i] + step <= totals[i + 1] {
      assert (i + 1) * step == i * step + step;
    }
    PrintItemsSize(ListItems(item, xs), totals);
    assert |xs| * step == |xs| * (max + 4) + if max < 0x100 then 0 else |xs|;
  }

  lemma BulkOrderItemsSize(b: Body)
    requires b.BulkOrder?
    ensures |PrintItems(BodyItems(b))| <= 711
  {
    hide PrintField, FlatMap, PrintOrder, PrintBuilder, PrintCode;
    ListItemsSize(OrderItem, b.orders, 121);
    var tail := [(0xea, PrintCode(GroupingCode(b.grouping)))] + BuilderPart(b.builder);
    PrintItemsSize(tail, [0, 4] + if b.builder.Some? then [41] else []);
    FlatMapAppend<Item, byte>(PrintItem, ListItems(OrderItem, b.orders), tail);
  }

  lemma BodyItemsSize(b: Body)
    ensures |PrintItems(BodyItems(b))| <= 711
  {
    hide PrintItems, PrintCode, PrintU32, PrintU64, PrintFlag, BE, PrintModify, PrintCancel;
    match b
    case BulkOrder(_, _, _) => BulkOrderItemsSize(b);
    case BulkModify(edits) => ListItemsSize(ModifyItem, edits, 135);
    case BulkCancel(cancels) => ListItemsSize(CancelItem, cancels, 18);
    case UpdateLeverage(_, _, _) => PrintItemsSize(BodyItems(b), [0, 7, 11, 18]);
    case ApproveBuilderFee(_, _, _) => PrintItemsSize(BodyItems(b), [0, 11, 35, 58]);
    case UpdateIsolatedMargin(_, _, _) => PrintItemsSize(BodyItems(b), [0, 7, 11, 22]);
    case UserSetAbstraction(_, _) => PrintItemsSize(BodyItems(b), [0, 11, 15]);
  }

  function PrintBody(b: Body): (r: seq<byte>)
    ensures |r| <= 711
  {
    BodyItemsSize(b);
    PrintItems(BodyItems(b))
  }

  function ActionItems(a: Action): seq<Item> {
    [(0x01, PrintCode(0x2c)), (0x02, PrintCode(1)), (0xd0, PrintCode(ActionTypeCode(TypeOf(a.body)))),
     (0xda, PrintU64(a.nonce)), (0xdb, PrintBody(a.body))]
  }

  /** set_action.py: SetAction.serialize; always small enough for one chunked transfer. */
  function PrintAction(a: Action): (r: seq<byte>)
    ensures 1 <= |r| <= 739
  {
    ActionItemsSize(a);
    PrintItems(ActionItems(a))
  }

  lemma ActionItemsSize(a: Action)
    ensures 1 <= |PrintItems(ActionItems(a))| <= 739
  {
    hide PrintField, PrintCode, PrintU64, PrintBody;
    PrintItemsSize(ActionItems(a), [0, 4, 8, 12, 23, 739]);
    PrintFieldNonEmpty(ActionItems(a)[4]);
    assert PrintItems(ActionItems(a)) == PrintItems(ActionItems(a)[..4]) + PrintItem(ActionItems(a)[4]);
  }

  // ---------------------------------------------------------------- print, then parse

  function BulkOrderDrafts(b: Body, metaAsset: u32): seq<BulkOrderDraft>
    requires b.BulkOrder?
  {
    var n, all := |b.orders|, BulkOrderDraft(metaAsset, b.orders, Some(b.grouping), None);
    seq(n + 1, i requires 0 <= i <= n => BulkOrderDraft(metaAsset, b.orders[..i], None, None))
    + ([all] + if b.builder.Some? then [all.(builder := b.builder)] else [])
  }

  lemma BulkOrderHandled(b: Body, metaAsset: u32, i: nat)
    requires b.BulkOrder? && AssetsAre(b, metaAsset) && i < |BodyItems(b)|
    ensures var outs := BulkOrderDrafts(b, metaAsset);
            HandleBulkOrder(ItemField(BodyItems(b)[i]), outs[i]) == Some(outs[i + 1])
  {
    hide PrintCode, GetUint, PrintBuilder, ParseBuilder, PrintOrder, ParseOrder, PrintField, GroupingOf, GroupingCode;
    GetsInvert();
    CodesInvert();
    var n := |b.orders|;
    if i < n {
      OrderPrintParse(b.orders[i]);
      assert b.orders[..i + 1] == b.orders[..i] + [b.orders[i]];
    } else if i == n {
      assert b.orders[..n] == b.orders;
    } else {
      BuilderPrintParse(b.builder.value);
    }
  }

  lemma BulkOrderAdmissible(b: Body)
    requires b.BulkOrder?
    ensures Admissible(BULK_ORDER_SPEC, BodyItems(b))
  {
    hide PrintCode, PrintBuilder, PrintOrder;
  }

  lemma BulkOrderPrintParse(b: Body, metaAsset: u32)
    requires b.BulkOrder? && AssetsAre(b, metaAsset) && NonEmptyBatch(b)
    ensures ParseBulkOrder(PrintBody(b), metaAsset) == Some(b)
  {
    hide PrintItems, RunTlv, PrintField, HandleBulkOrder, BodyItems, Admissible, AssetsAre;
    var items, outs := BodyItems(b), BulkOrderDrafts(b, metaAsset);
    assert |outs| == |items| + 1 by { BulkOrderCounts(b); }
    forall i | 0 <= i < |items| ensures BULK_ORDER_SPEC.handle(ItemField(items[i]), outs[i]) == Some(outs[i + 1]) {
      BulkOrderHandled(b, metaAsset, i);
    }
    BulkOrderAdmissible(b);
    RunPrinted(BULK_ORDER_SPEC, items, outs);
  }

  lemma BulkOrderCounts(b: Body)
    requires b.BulkOrder?
    ensures |BodyItems(b)| == |b.orders| + 1 + if b.builder.Some? then 1 else 0
  {
    hide PrintCode, PrintBuilder;
  }

  lemma BulkModifyPrintParse(b: Body, metaAsset: u32)
    requires b.BulkModify? && AssetsAre(b, metaAsset) && NonEmptyBatch(b)
    ensures ParseBulkModify(PrintBody(b), metaAsset) == Some(b)
  {
    hide PrintItems, RunTlv, PrintModify, ParseModify, PrintField;
    var n, items := |b.edits|, BodyItems(b);
    var outs := seq(n + 1, i requires 0 <= i <= n => BulkModifyDraft(metaAsset, b.edits[..i]));
    forall i | 0 <= i < n ensures BULK_MODIFY_SPEC.handle(ItemField(items[i]), outs[i]) == Some(outs[i + 1]) {
      ModifyPrintParse(b.edits[i]);
      assert b.edits[..i + 1] == b.edits[..i] + [b.edits[i]];
    }
    assert b.edits[..n] == b.edits;
    RunPrinted(BULK_MODIFY_SPEC, items, outs);
  }

  lemma BulkCancelPrintParse(b: Body, metaAsset: u32)
    requires b.BulkCancel? && AssetsAre(b, metaAsset) && NonEmptyBatch(b)
    ensures ParseBulkCancel(PrintBody(b), metaAsset) == Some(b)
  {
    hide PrintItems, RunTlv, PrintCancel, ParseCancel, PrintField;
    var n, items := |b.cancels|, BodyItems(b);
    var outs := seq(n + 1, i requires 0 <= i <= n => BulkCancelDraft(metaAsset, b.cancels[..i]));
    forall i | 0 <= i < n ensures BULK_CANCEL_SPEC.handle(ItemField(items[i]), outs[i]) == Some(outs[i + 1]) {
      CancelPrintParse(b.cancels[i]);
      assert b.cancels[..i + 1] == b.cancels[..i] + [b.cancels[i]];
    }
    assert b.cancels[..n] == b.cancels;
    RunPrinted(BULK_CANCEL_SPEC, items, outs);
  }

  lemma LeveragePrintParse(b: Body, metaAsset: u32)
    requires b.UpdateLeverage? && AssetsAre(b, metaAsset)
    ensures ParseLeverage(PrintBody(b), metaAsset) == Some(b)
  {
    hide PrintField, GetUint, PrintU32, PrintFlag;
    GetsInvert();
    var d0 := LeverageDraft(None, None, None);
    var d1 := d0.(asset := Some(b.asset));
    var d2 := d1.(isCross := Some(b.isCross));
    RunPrinted(LEVERAGE_SPEC, BodyItems(b), [d0, d1, d2, d2.(leverage := Some(b.leverage))]);
  }

  lemma FeePrintParse(b: Body)
    requires b.ApproveBuilderFee?
    ensures ParseFee(PrintBody(b)) == Some(b)
  {
    hide PrintField, GetUint, PrintU64;
    GetsInvert();
    var d0 := FeeDraft(None, None, None);
    var d1 := d0.(chainId := Some(b.feeChainId));
    var d2 := d1.(rate := Some(b.maxFeeRate));
    RunPrinted(FEE_SPEC, BodyItems(b), [d0, d1, d2, d2.(builder := Some(b.feeBuilder))]);
  }

  /** Every 8-byte word is accepted and read as its two's complement, and every signed amount has one. */
  lemma MarginAmountFidelity(v: seq<byte>, ntli: i64)
    ensures |v| == 8 ==> GetU64(v).Some? && BE(ToUnsigned(ToSigned(GetU64(v).value)), 8) == v
    ensures GetU64(BE(ToUnsigned(ntli), 8)) == Some(ToUnsigned(ntli)) && ToSigned(ToUnsigned(ntli)) == ntli
  {
    hide BE, FromBE;
    Pow256Values();
    BEInvertsFromBE(v);
    FromBEInvertsBE(ToUnsigned(ntli), 8);
  }

  lemma MarginPrintParse(b: Body, metaAsset: u32)
    requires b.UpdateIsolatedMargin? && AssetsAre(b, metaAsset)
    ensures ParseMargin(PrintBody(b), metaAsset) == Some(b)
  {
    hide PrintField, GetUint, PrintU32, PrintFlag, BE, ToUnsigned, ToSigned;
    GetsInvert();
    MarginAmountFidelity([], b.ntli);
    var d0 := MarginDraft(None, None, None);
    var d1 := d0.(asset := Some(b.marginAsset));
    var d2 := d1.(isBuy := Some(b.marginIsBuy));
    RunPrinted(MARGIN_SPEC, BodyItems(b), [d0, d1, d2, d2.(ntli := Some(b.ntli))]);
  }

  lemma CodesInvert()
    ensures forall a :: AbstractionOf(AbstractionCode(a)) == Some(a)
    ensures forall g :: GroupingOf(GroupingCode(g)) == Some(g)
    ensures forall t :: ActionTypeOf(ActionTypeCode(t)) == Some(t)
  {
  }

  lemma AbstractionPrintParse(b: Body)
    requires b.UserSetAbstraction?
    ensures ParseAbstraction(PrintBody(b)) == Some(b)
  {
    hide PrintField, GetUint, PrintU64, PrintCode, AbstractionOf, AbstractionCode;
    GetsInvert();
    CodesInvert();
    var d1 := AbstractionDraft(Some(b.abstractionChainId), None);
    RunPrinted(ABSTRACTION_SPEC, BodyItems(b),
               [AbstractionDraft(None, None), d1, d1.(code := Some(AbstractionCode(b.abstraction)))]);
  }

  lemma BodyPrintParse(b: Body, metaAsset: u32)
    requires AssetsAre(b, metaAsset) && NonEmptyBatch(b)
    ensures ParseBody(TypeOf(b), PrintBody(b), metaAsset) == Some(b)
  {
    hide RunTlv, PrintBody;
    match b
    case BulkOrder(_, _, _) => BulkOrderPrintParse(b, metaAsset);
    case BulkModify(_) => BulkModifyPrintParse(b, metaAsset);
    case BulkCancel(_) => BulkCancelPrintParse(b, metaAsset);
    case UpdateLeverage(_, _, _) => LeveragePrintParse(b, metaAsset);
    case ApproveBuilderFee(_, _, _) => FeePrintParse(b);
    case UpdateIsolatedMargin(_, _, _) => MarginPrintParse(b, metaAsset);
    case UserSetAbstraction(_, _) => AbstractionPrintParse(b);
  }

  /** The client's set-action bytes parse back to the action, nested structures and all. */
  lemma ActionPrintParse(a: Action, metaAsset: u32)
    requires AssetsAre(a.body, metaAsset) && NonEmptyBatch(a.body)
    ensures ParseAction(PrintAction(a), metaAsset) == Some(a)
  {
    hide PrintField, GetUint, PrintU64, PrintCode, PrintBody, ParseBody, AssetsAre, NonEmptyBatch, TypeOf,
         ActionTypeOf, ActionTypeCode;
    GetsInvert();
    CodesInvert();
    BodyPrintParse(a.body, metaAsset);
    var d0 := NoAction(metaAsset);
    var d1 := d0.(structType := true);
    var d2 := d1.(version := true);
    var d3 := d2.(actionType := Some(TypeOf(a.body)));
    var d4 := d3.(nonce := Some(a.nonce));
    RunPrinted(ACTION_SPEC, ActionItems(a), [d0, d1, d2, d3, d4, d4.(body := Some(a.body))]);
  }
}
