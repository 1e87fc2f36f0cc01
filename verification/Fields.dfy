/**
 What a parsed structure says about the bytes it came from: which fields they hold, how often, and that each part of
 the structure is the reading of its own field.
 */
module Fields {
  import opened Bytes
  import opened Model
  import opened Tlv
  import opened Parsers
  import opened ActionParser
  import opened MetadataParser

  /** The reading of the one field of bs that carries tag; None unless there is exactly one and it can be read. */
  function Sole<V>(bs: seq<byte>, tag: nat, read: seq<byte> -> Option<V>): Option<V> {
    if |Repeated(bs, tag)| == 1 then read(Repeated(bs, tag)[0]) else None
  }

  /** The same for a field that may be missing. */
  ghost predicate Maybe<V>(bs: seq<byte>, tag: nat, read: seq<byte> -> Option<V>, x: Option<V>) {
    if x.None? then Repeated(bs, tag) == [] else Sole(bs, tag, read) == x
  }

  /** One step of a parser: a field with tag sets a part of the structure from its value, the others leave it. */
  ghost predicate SetsAt<S, V>(spec: Spec<S>, tag: nat, says: (seq<byte>, V) -> bool, get: S -> Option<V>,
                               keeps: S -> bool, f: Field, s: S) {
    keeps(s) && f.tag in spec.tags && spec.handle(f, s).Some? ==>
      var next := spec.handle(f, s).value;
      keeps(next) &&
      if f.tag == tag then get(next).Some? && says(f.value, get(next).value) else get(next) == get(s)
  }

  ghost predicate Sets<S(!new), V>(spec: Spec<S>, tag: nat, says: (seq<byte>, V) -> bool, get: S -> Option<V>,
                                   keeps: S -> bool) {
    tag in spec.tags && spec.tags[tag] && forall f: Field, s: S :: SetsAt(spec, tag, says, get, keeps, f, s)
  }

  lemma {:induction false} RunSets<S(!new), V>(spec: Spec<S>, tag: nat, says: (seq<byte>, V) -> bool,
      get: S -> Option<V>, keeps: S -> bool, bs: seq<byte>, received: set<nat>, out: S)
    requires Sets(spec, tag, says, get, keeps) && keeps(out)
    requires RunTlv(spec, bs, received, out).Some?
    ensures var vs, r := Repeated(bs, tag), RunTlv(spec, bs, received, out).value;
            |vs| <= (if tag in received then 0 else 1)
            && if vs == [] then get(r) == get(out) else get(r).Some? && says(vs[0], get(r).value)
    decreases |bs|
  {
    hide ReadField;
    if bs != [] {
      var (f, rest) := ReadField(bs).value;
      assert SetsAt(spec, tag, says, get, keeps, f, out);
      var next := spec.handle(f, out).value;
      RunSets(spec, tag, says, get, keeps, rest, received + {f.tag}, next);
    }
  }

  /** The common case: the value alone determines the part, whatever the rest of the structure. */
  ghost predicate SetsBy<S, V>(spec: Spec<S>, tag: nat, read: seq<byte> -> Option<V>, get: S -> Option<V>,
                               f: Field, s: S) {
    f.tag in spec.tags && spec.handle(f, s).Some? ==>
      var next := spec.handle(f, s).value;
      if f.tag == tag then get(next).Some? && get(next) == read(f.value) else get(next) == get(s)
  }

  /** A part that was unset at the start and is set at the end is the reading of its one field. */
  lemma SetOnce<S(!new), V>(spec: Spec<S>, tag: nat, read: seq<byte> -> Option<V>, get: S -> Option<V>,
                            bs: seq<byte>, out: S)
    requires tag in spec.tags && spec.tags[tag] && forall f: Field, s: S :: SetsBy(spec, tag, read, get, f, s)
    requires get(out) == None && RunTlv(spec, bs, {}, out).Some?
    ensures Maybe(bs, tag, read, get(RunTlv(spec, bs, {}, out).value))
  {
    var says, keeps := (v, x) => read(v) == Some(x), (s: S) => true;
    forall f: Field, s: S ensures SetsAt(spec, tag, says, get, keeps, f, s) {
      assert SetsBy(spec, tag, read, get, f, s);
    }
    RunSets(spec, tag, says, get, keeps, bs, {}, out);
  }

  /** No accepted structure holds a field whose tag it does not know. */
  lemma {:induction false} NoOtherFields<S>(spec: Spec<S>, tag: nat, bs: seq<byte>, received: set<nat>, out: S)
    requires tag !in spec.tags && RunTlv(spec, bs, received, out).Some?
    ensures Repeated(bs, tag) == []
    decreases |bs|
  {
    hide ReadField;
    if bs != [] {
      var (f, rest) := ReadField(bs).value;
      NoOtherFields(spec, tag, rest, received + {f.tag}, spec.handle(f, out).value);
    }
  }

  // ---------------------------------------------------------------- order kinds

  function ReadTif(v: seq<byte>): Option<Tif> { var n :- GetCode(v); TifOf(n) }

  function ReadTpsl(v: seq<byte>): Option<Tpsl> { var n :- GetCode(v); TpslOf(n) }

  function ReadNumeric(v: seq<byte>): Option<Numeric> { var s :- GetText(v, NUMERIC_STRING_LENGTH); Some(s) }

  function ReadAddress(v: seq<byte>): Option<Address> { var a :- GetBuffer(v, ADDRESS_LENGTH); Some(a) }

  lemma LimitFields(bs: seq<byte>)
    requires ParseLimit(bs).Some?
    ensures ParseLimit(bs).value.Limit? && Sole(bs, 0xe6, ReadTif) == Some(ParseLimit(bs).value.tif)
  {
    hide GetUint, RunTlv, Repeated;
    var d0 := LimitDraft(None);
    var tif := (d: LimitDraft) => d.tif;
    forall f, d ensures SetsBy(LIMIT_SPEC, 0xe6, ReadTif, tif, f, d) {
    }
    SetOnce(LIMIT_SPEC, 0xe6, ReadTif, tif, bs, d0);
  }

  lemma TriggerFields(bs: seq<byte>)
    requires ParseTrigger(bs).Some?
    ensures var k := ParseTrigger(bs).value;
            k.Trigger? && Sole(bs, 0xe7, GetBool) == Some(k.isMarket)
            && Sole(bs, 0xe8, ReadNumeric) == Some(k.triggerPx) && Sole(bs, 0xe9, ReadTpsl) == Some(k.tpsl)
  {
    hide GetUint, GetBool, GetU32, GetU64, IsCString, RunTlv, Repeated;
    var d0 := TriggerDraft(None, None, None);
    var market := (d: TriggerDraft) => d.isMarket;
    forall f, d ensures SetsBy(TRIGGER_SPEC, 0xe7, GetBool, market, f, d) {
    }
    SetOnce(TRIGGER_SPEC, 0xe7, GetBool, market, bs, d0);
    var px := (d: TriggerDraft) => d.triggerPx;
    forall f, d ensures SetsBy(TRIGGER_SPEC, 0xe8, ReadNumeric, px, f, d) {
    }
    SetOnce(TRIGGER_SPEC, 0xe8, ReadNumeric, px, bs, d0);
    var tpsl := (d: TriggerDraft) => d.tpsl;
    forall f, d ensures SetsBy(TRIGGER_SPEC, 0xe9, ReadTpsl, tpsl, f, d) {
    }
    SetOnce(TRIGGER_SPEC, 0xe9, ReadTpsl, tpsl, bs, d0);
  }

  // ---------------------------------------------------------------- requests

  function ReadOrderType(v: seq<byte>): Option<OrderType> { var n :- GetCode(v); OrderTypeOf(n) }

  /** A kind says as a limit or as a trigger, never as both. */
  function ReadKind(v: seq<byte>): Option<OrderKind> {
    if ParseLimit(v).Some? then ParseLimit(v) else ParseTrigger(v)
  }

  lemma KindsDiffer(v: seq<byte>)
    ensures ParseLimit(v).None? || ParseTrigger(v).None?
  {
    hide RunTlv, Repeated;
    if ParseLimit(v).Some? && ParseTrigger(v).Some? {
      LimitFields(v);
      NoOtherFields(TRIGGER_SPEC, 0xe6, v, {}, TriggerDraft(None, None, None));
    }
  }

  lemma KindIsRead(v: seq<byte>, t: Option<OrderType>)
    ensures HandleKind(v, t).Some? ==> ReadKind(v) == HandleKind(v, t)
  {
    hide ParseLimit, ParseTrigger;
    KindsDiffer(v);
  }

  function ReadCloid(v: seq<byte>): Option<Cloid> { var id :- GetBuffer(v, CLOID_BYTES); Some(id) }

  lemma OrderValueFields(bs: seq<byte>)
    requires RunTlv(ORDER_SPEC, bs, {}, NO_ORDER).Some?
    ensures var d := RunTlv(ORDER_SPEC, bs, {}, NO_ORDER).value;
            Maybe(bs, 0xd1, GetU32, d.asset) && Maybe(bs, 0xe2, GetBool, d.isBuy)
            && Maybe(bs, 0xe3, ReadNumeric, d.limitPx) && Maybe(bs, 0xe4, ReadNumeric, d.sz)
            && Maybe(bs, 0xe5, GetBool, d.reduceOnly)
  {
    hide GetUint, GetBool, GetU32, IsCString, RunTlv, Repeated, HandleKind, Maybe;
    var asset := (d: OrderDraft) => d.asset;
    forall f, d ensures SetsBy(ORDER_SPEC, 0xd1, GetU32, asset, f, d) {
    }
    SetOnce(ORDER_SPEC, 0xd1, GetU32, asset, bs, NO_ORDER);
    var buy := (d: OrderDraft) => d.isBuy;
    forall f, d ensures SetsBy(ORDER_SPEC, 0xe2, GetBool, buy, f, d) {
    }
    SetOnce(ORDER_SPEC, 0xe2, GetBool, buy, bs, NO_ORDER);
    var px := (d: OrderDraft) => d.limitPx;
    forall f, d ensures SetsBy(ORDER_SPEC, 0xe3, ReadNumeric, px, f, d) {
    }
    SetOnce(ORDER_SPEC, 0xe3, ReadNumeric, px, bs, NO_ORDER);
    var sz := (d: OrderDraft) => d.sz;
    forall f, d ensures SetsBy(ORDER_SPEC, 0xe4, ReadNumeric, sz, f, d) {
    }
    SetOnce(ORDER_SPEC, 0xe4, ReadNumeric, sz, bs, NO_ORDER);
    var reduce := (d: OrderDraft) => d.reduceOnly;
    forall f, d ensures SetsBy(ORDER_SPEC, 0xe5, GetBool, reduce, f, d) {
    }
    SetOnce(ORDER_SPEC, 0xe5, GetBool, reduce, bs, NO_ORDER);
  }

  lemma OrderKindFields(bs: seq<byte>)
    requires RunTlv(ORDER_SPEC, bs, {}, NO_ORDER).Some?
    ensures var d := RunTlv(ORDER_SPEC, bs, {}, NO_ORDER).value;
            Maybe(bs, 0xe0, ReadOrderType, d.orderType) && Maybe(bs, 0xd7, ReadKind, d.kind)
            && Maybe(bs, 0xee, ReadCloid, d.cloid)
  {
    hide GetUint, GetBool, GetU32, IsCString, RunTlv, Repeated, HandleKind, ReadKind, Maybe;
    var typ := (d: OrderDraft) => d.orderType;
    forall f, d ensures SetsBy(ORDER_SPEC, 0xe0, ReadOrderType, typ, f, d) {
    }
    SetOnce(ORDER_SPEC, 0xe0, ReadOrderType, typ, bs, NO_ORDER);
    var kind := (d: OrderDraft) => d.kind;
    forall f, d ensures SetsBy(ORDER_SPEC, 0xd7, ReadKind, kind, f, d) {
      KindIsRead(f.value, d.orderType);
    }
    SetOnce(ORDER_SPEC, 0xd7, ReadKind, kind, bs, NO_ORDER);
    var cloid := (d: OrderDraft) => d.cloid;
    forall f, d ensures SetsBy(ORDER_SPEC, 0xee, ReadCloid, cloid, f, d) {
    }
    SetOnce(ORDER_SPEC, 0xee, ReadCloid, cloid, bs, NO_ORDER);
  }

  /** Every accepted order is the reading of its fields, each of which occurs once, but for an optional client id. */
  lemma OrderFields(bs: seq<byte>, metaAsset: u32)
    requires ParseOrder(bs, metaAsset).Some?
    ensures var o := ParseOrder(bs, metaAsset).value;
            && o.asset == metaAsset && Sole(bs, 0xd1, GetU32) == Some(o.asset)
            && Sole(bs, 0xe2, GetBool) == Some(o.isBuy) && Sole(bs, 0xe3, ReadNumeric) == Some(o.limitPx)
            && Sole(bs, 0xe4, ReadNumeric) == Some(o.sz) && Sole(bs, 0xe5, GetBool) == Some(o.reduceOnly)
            && Sole(bs, 0xe0, ReadOrderType) == Some(KindType(o.kind)) && Sole(bs, 0xd7, ReadKind) == Some(o.kind)
            && Maybe(bs, 0xee, ReadCloid, o.cloid)
  {
    hide RunTlv, Repeated, Sole, ReadKind, ReadNumeric, GetBool, GetU32;
    OrderValueFields(bs);
    OrderKindFields(bs);
    OrderVariantMatchesType(bs);
  }

  lemma BuilderFields(bs: seq<byte>)
    requires ParseBuilder(bs).Some?
    ensures Sole(bs, 0xd3, ReadAddress) == Some(ParseBuilder(bs).value.builder)
    ensures Sole(bs, 0xec, GetU64) == Some(ParseBuilder(bs).value.fee)
  {
    hide GetUint, GetBool, GetU32, GetU64, IsCString, RunTlv, Repeated;
    var d0 := BuilderDraft(None, None);
    var addr := (d: BuilderDraft) => d.builder;
    forall f, d ensures SetsBy(BUILDER_SPEC, 0xd3, ReadAddress, addr, f, d) {
    }
    SetOnce(BUILDER_SPEC, 0xd3, ReadAddress, addr, bs, d0);
    var fee := (d: BuilderDraft) => d.fee;
    forall f, d ensures SetsBy(BUILDER_SPEC, 0xec, GetU64, fee, f, d) {
    }
    SetOnce(BUILDER_SPEC, 0xec, GetU64, fee, bs, d0);
  }

  lemma CancelFields(bs: seq<byte>, metaAsset: u32)
    requires ParseCancel(bs, metaAsset).Some?
    ensures var c := ParseCancel(bs, metaAsset).value;
            c.asset == metaAsset && Sole(bs, 0xd1, GetU32) == Some(c.asset) && Sole(bs, 0xdc, GetU64) == Some(c.oid)
  {
    hide GetUint, GetBool, GetU32, GetU64, IsCString, RunTlv, Repeated;
    var d0 := CancelDraft(None, None);
    var asset := (d: CancelDraft) => d.asset;
    forall f, d ensures SetsBy(CANCEL_SPEC, 0xd1, GetU32, asset, f, d) {
    }
    SetOnce(CANCEL_SPEC, 0xd1, GetU32, asset, bs, d0);
    var oid := (d: CancelDraft) => d.oid;
    forall f, d ensures SetsBy(CANCEL_SPEC, 0xdc, GetU64, oid, f, d) {
    }
    SetOnce(CANCEL_SPEC, 0xdc, GetU64, oid, bs, d0);
  }

  /** A modify request: its order, parsed under the same asset, and its order id. */
  lemma ModifyFields(bs: seq<byte>, metaAsset: u32)
    requires ParseModify(bs, metaAsset).Some?
    ensures var m := ParseModify(bs, metaAsset).value;
            Sole(bs, 0xdd, v => ParseOrder(v, metaAsset)) == Some(m.order) && Sole(bs, 0xdc, GetU64) == Some(m.oid)
  {
    hide GetU64, ParseOrder, RunTlv, Repeated;
    var d0 := ModifyDraft(metaAsset, None, None);
    var keeps := (d: ModifyDraft) => d.metaAsset == metaAsset;
    var says := (v, x) => ParseOrder(v, metaAsset) == Some(x);
    var order := (d: ModifyDraft) => d.order;
    forall f, d ensures SetsAt(MODIFY_SPEC, 0xdd, says, order, keeps, f, d) {
    }
    RunSets(MODIFY_SPEC, 0xdd, says, order, keeps, bs, {}, d0);
    var oid := (d: ModifyDraft) => d.oid;
    forall f, d ensures SetsBy(MODIFY_SPEC, 0xdc, GetU64, oid, f, d) {
    }
    SetOnce(MODIFY_SPEC, 0xdc, GetU64, oid, bs, d0);
  }

  // ---------------------------------------------------------------- action payloads

  function ReadGrouping(v: seq<byte>): Option<Grouping> { var n :- GetCode(v); GroupingOf(n) }

  lemma BulkOrderFields(bs: seq<byte>, metaAsset: u32)
    requires ParseBulkOrder(bs, metaAsset).Some?
    ensures var b := ParseBulkOrder(bs, metaAsset).value;
            Sole(bs, 0xea, ReadGrouping) == Some(b.grouping) && Maybe(bs, 0xeb, ParseBuilder, b.builder)
  {
    hide GetUint, ParseOrder, ParseBuilder, RunTlv, Repeated;
    var d0 := BulkOrderDraft(metaAsset, [], None, None);
    var grouping := (d: BulkOrderDraft) => d.grouping;
    forall f, d ensures SetsBy(BULK_ORDER_SPEC, 0xea, ReadGrouping, grouping, f, d) {
    }
    SetOnce(BULK_ORDER_SPEC, 0xea, ReadGrouping, grouping, bs, d0);
    var builder := (d: BulkOrderDraft) => d.builder;
    forall f, d ensures SetsBy(BULK_ORDER_SPEC, 0xeb, ParseBuilder, builder, f, d) {
    }
    SetOnce(BULK_ORDER_SPEC, 0xeb, ParseBuilder, builder, bs, d0);
  }

  lemma LeverageFields(bs: seq<byte>, metaAsset: u32)
    requires ParseLeverage(bs, metaAsset).Some?
    ensures var b := ParseLeverage(bs, metaAsset).value;
            b.UpdateLeverage? && b.asset == metaAsset && Sole(bs, 0xd1, GetU32) == Some(b.asset)
            && Sole(bs, 0xde, GetBool) == Some(b.isCross) && Sole(bs, 0xed, GetU32) == Some(b.leverage)
  {
    hide GetUint, GetBool, GetU32, GetU64, IsCString, RunTlv, Repeated;
    var d0 := LeverageDraft(None, None, None);
    var asset := (d: LeverageDraft) => d.asset;
    forall f, d ensures SetsBy(LEVERAGE_SPEC, 0xd1, GetU32, asset, f, d) {
    }
    SetOnce(LEVERAGE_SPEC, 0xd1, GetU32, asset, bs, d0);
    var cross := (d: LeverageDraft) => d.isCross;
    forall f, d ensures SetsBy(LEVERAGE_SPEC, 0xde, GetBool, cross, f, d) {
    }
    SetOnce(LEVERAGE_SPEC, 0xde, GetBool, cross, bs, d0);
    var leverage := (d: LeverageDraft) => d.leverage;
    forall f, d ensures SetsBy(LEVERAGE_SPEC, 0xed, GetU32, leverage, f, d) {
    }
    SetOnce(LEVERAGE_SPEC, 0xed, GetU32, leverage, bs, d0);
  }

  lemma FeeFields(bs: seq<byte>)
    requires ParseFee(bs).Some?
    ensures var b := ParseFee(bs).value;
            b.ApproveBuilderFee? && Sole(bs, 0x23, GetU64) == Some(b.feeChainId)
            && Sole(bs, 0xb0, ReadNumeric) == Some(b.maxFeeRate) && Sole(bs, 0xd3, ReadAddress) == Some(b.feeBuilder)
  {
    hide GetUint, GetBool, GetU32, GetU64, IsCString, RunTlv, Repeated;
    var d0 := FeeDraft(None, None, None);
    var chain := (d: FeeDraft) => d.chainId;
    forall f, d ensures SetsBy(FEE_SPEC, 0x23, GetU64, chain, f, d) {
    }
    SetOnce(FEE_SPEC, 0x23, GetU64, chain, bs, d0);
    var rate := (d: FeeDraft) => d.rate;
    forall f, d ensures SetsBy(FEE_SPEC, 0xb0, ReadNumeric, rate, f, d) {
    }
    SetOnce(FEE_SPEC, 0xb0, ReadNumeric, rate, bs, d0);
    var builder := (d: FeeDraft) => d.builder;
    forall f, d ensures SetsBy(FEE_SPEC, 0xd3, ReadAddress, builder, f, d) {
    }
    SetOnce(FEE_SPEC, 0xd3, ReadAddress, builder, bs, d0);
  }

  function ReadAbstraction(v: seq<byte>): Option<Abstraction> { var n :- GetCode(v); AbstractionOf(n) }

  lemma AbstractionFields(bs: seq<byte>)
    requires ParseAbstraction(bs).Some?
    ensures var b := ParseAbstraction(bs).value;
            b.UserSetAbstraction? && Sole(bs, 0x23, GetU64) == Some(b.abstractionChainId)
            && Sole(bs, 0xdf, ReadAbstraction) == Some(b.abstraction)
  {
    hide GetUint, GetBool, GetU32, GetU64, IsCString, RunTlv, Repeated;
    var d0 := AbstractionDraft(None, None);
    var chain := (d: AbstractionDraft) => d.chainId;
    forall f, d ensures SetsBy(ABSTRACTION_SPEC, 0x23, GetU64, chain, f, d) {
    }
    SetOnce(ABSTRACTION_SPEC, 0x23, GetU64, chain, bs, d0);
    var code := (d: AbstractionDraft) => d.code;
    forall f, d ensures SetsBy(ABSTRACTION_SPEC, 0xdf, GetCode, code, f, d) {
    }
    SetOnce(ABSTRACTION_SPEC, 0xdf, GetCode, code, bs, d0);
  }

  lemma MarginFields(bs: seq<byte>, metaAsset: u32)
    requires ParseMargin(bs, metaAsset).Some?
    ensures var b := ParseMargin(bs, metaAsset).value;
            b.UpdateIsolatedMargin? && b.marginAsset == metaAsset && Sole(bs, 0xd1, GetU32) == Some(b.marginAsset)
            && Sole(bs, 0xe2, GetBool) == Some(b.marginIsBuy)
  {
    hide GetUint, GetBool, GetU32, GetU64, IsCString, RunTlv, Repeated;
    var d0 := MarginDraft(None, None, None);
    var asset := (d: MarginDraft) => d.asset;
    forall f, d ensures SetsBy(MARGIN_SPEC, 0xd1, GetU32, asset, f, d) {
    }
    SetOnce(MARGIN_SPEC, 0xd1, GetU32, asset, bs, d0);
    var buy := (d: MarginDraft) => d.isBuy;
    forall f, d ensures SetsBy(MARGIN_SPEC, 0xe2, GetBool, buy, f, d) {
    }
    SetOnce(MARGIN_SPEC, 0xe2, GetBool, buy, bs, d0);
  }

  // ---------------------------------------------------------------- actions and metadata

  /** A field whose only admitted value is code. */
  function ReadConstant(v: seq<byte>, code: nat): Option<bool> {
    if GetCode(v) == Some(code) then Some(true) else None
  }

  function ReadActionType(v: seq<byte>): Option<ActionType> { var n :- GetCode(v); ActionTypeOf(n) }

  /** An accepted action: its two constants, its type and nonce, and the structure of that type in its one field. */
  lemma ActionFields(bs: seq<byte>, metaAsset: u32)
    requires ParseAction(bs, metaAsset).Some?
    ensures var a := ParseAction(bs, metaAsset).value;
            && Sole(bs, 0x01, v => ReadConstant(v, 0x2c)) == Some(true)
            && Sole(bs, 0x02, v => ReadConstant(v, 1)) == Some(true)
            && Sole(bs, 0xd0, ReadActionType) == Some(TypeOf(a.body)) && Sole(bs, 0xda, GetU64) == Some(a.nonce)
            && Sole(bs, 0xdb, v => ParseBody(TypeOf(a.body), v, metaAsset)) == Some(a.body)
  {
    hide RunTlv, Repeated, GetUint, GetU64, ParseBody, ActionTypeOf, TypeOf, AssetsAre, NonEmptyBatch;
    var d0 := NoAction(metaAsset);
    var kind, version := v => ReadConstant(v, 0x2c), v => ReadConstant(v, 1);
    var hasKind := (d: ActionDraft) => if d.structType then Some(true) else None;
    forall f, d ensures SetsBy(ACTION_SPEC, 0x01, kind, hasKind, f, d) {
    }
    SetOnce(ACTION_SPEC, 0x01, kind, hasKind, bs, d0);
    var hasVersion := (d: ActionDraft) => if d.version then Some(true) else None;
    forall f, d ensures SetsBy(ACTION_SPEC, 0x02, version, hasVersion, f, d) {
    }
    SetOnce(ACTION_SPEC, 0x02, version, hasVersion, bs, d0);
    var typ := (d: ActionDraft) => d.actionType;
    forall f, d ensures SetsBy(ACTION_SPEC, 0xd0, ReadActionType, typ, f, d) {
    }
    SetOnce(ACTION_SPEC, 0xd0, ReadActionType, typ, bs, d0);
    var nonce := (d: ActionDraft) => d.nonce;
    forall f, d ensures SetsBy(ACTION_SPEC, 0xda, GetU64, nonce, f, d) {
    }
    SetOnce(ACTION_SPEC, 0xda, GetU64, nonce, bs, d0);
    ActionBodyField(bs, metaAsset);
    ParsedActionIsSound(bs, metaAsset);
  }

  lemma ActionBodyField(bs: seq<byte>, metaAsset: u32)
    requires RunTlv(ACTION_SPEC, bs, {}, NoAction(metaAsset)).Some?
    ensures var b := RunTlv(ACTION_SPEC, bs, {}, NoAction(metaAsset)).value.body;
            b.Some? ==> Sole(bs, 0xdb, v => ParseBody(TypeOf(b.value), v, metaAsset)) == b
  {
    hide RunTlv, Repeated, GetUint, GetU64, ParseBody, ActionTypeOf, TypeOf, AssetsAre, NonEmptyBatch;
    var says := (v, b) => ParseBody(TypeOf(b), v, metaAsset) == Some(b);
    var body, keeps := (d: ActionDraft) => d.body, (d: ActionDraft) => d.metaAsset == metaAsset;
    forall f, d ensures SetsAt(ACTION_SPEC, 0xdb, says, body, keeps, f, d) {
      if f.tag == 0xdb && d.actionType.Some? && ParseBody(d.actionType.value, f.value, d.metaAsset).Some? {
        ParsedBodyIsSound(d.actionType.value, f.value, d.metaAsset);
      }
    }
    RunSets(ACTION_SPEC, 0xdb, says, body, keeps, bs, {}, NoAction(metaAsset));
  }

  function ReadOpType(v: seq<byte>): Option<OpType> { var n :- GetCode(v); OpTypeOf(n) }

  function ReadNetwork(v: seq<byte>): Option<Network> { var n :- GetCode(v); NetworkOf(n) }

  function ReadTicker(v: seq<byte>): Option<Ticker> { var s :- GetText(v, ASSET_TICKER_LENGTH); Some(s) }

  lemma MetadataAssetFields(bs: seq<byte>)
    requires RunTlv(METADATA_SPEC, bs, {}, NO_METADATA).Some?
    ensures var d := RunTlv(METADATA_SPEC, bs, {}, NO_METADATA).value;
            && Maybe(bs, 0xd1, GetU32, d.assetId) && Maybe(bs, 0x24, ReadTicker, d.ticker)
            && Maybe(bs, 0xd3, ReadAddress, d.builderAddr)
  {
    hide RunTlv, Repeated, GetUint, GetU32, GetU64, IsCString, OpTypeOf, NetworkOf, Maybe;
    var asset := (d: MetadataDraft) => d.assetId;
    forall f, d ensures SetsBy(METADATA_SPEC, 0xd1, GetU32, asset, f, d) {
    }
    SetOnce(METADATA_SPEC, 0xd1, GetU32, asset, bs, NO_METADATA);
    var ticker := (d: MetadataDraft) => d.ticker;
    forall f, d ensures SetsBy(METADATA_SPEC, 0x24, ReadTicker, ticker, f, d) {
    }
    SetOnce(METADATA_SPEC, 0x24, ReadTicker, ticker, bs, NO_METADATA);
    var builder := (d: MetadataDraft) => d.builderAddr;
    forall f, d ensures SetsBy(METADATA_SPEC, 0xd3, ReadAddress, builder, f, d) {
    }
    SetOnce(METADATA_SPEC, 0xd3, ReadAddress, builder, bs, NO_METADATA);
  }

  lemma MetadataAmountFields(bs: seq<byte>)
    requires RunTlv(METADATA_SPEC, bs, {}, NO_METADATA).Some?
    ensures var d := RunTlv(METADATA_SPEC, bs, {}, NO_METADATA).value;
            Maybe(bs, 0xd4, GetU64, d.margin) && Maybe(bs, 0xd5, GetU32, d.leverage)
  {
    hide RunTlv, Repeated, GetUint, GetU32, GetU64, IsCString, OpTypeOf, NetworkOf, Maybe;
    var margin := (d: MetadataDraft) => d.margin;
    forall f, d ensures SetsBy(METADATA_SPEC, 0xd4, GetU64, margin, f, d) {
    }
    SetOnce(METADATA_SPEC, 0xd4, GetU64, margin, bs, NO_METADATA);
    var leverage := (d: MetadataDraft) => d.leverage;
    forall f, d ensures SetsBy(METADATA_SPEC, 0xd5, GetU32, leverage, f, d) {
    }
    SetOnce(METADATA_SPEC, 0xd5, GetU32, leverage, bs, NO_METADATA);
  }

  lemma MetadataConstantFields(bs: seq<byte>)
    requires RunTlv(METADATA_SPEC, bs, {}, NO_METADATA).Some?
    ensures var d := RunTlv(METADATA_SPEC, bs, {}, NO_METADATA).value;
            && (d.structType ==> Sole(bs, 0x01, v => ReadConstant(v, 0x2b)) == Some(true))
            && (d.version ==> Sole(bs, 0x02, v => ReadConstant(v, 1)) == Some(true))
  {
    hide RunTlv, Repeated, GetUint, GetU32, GetU64, IsCString, OpTypeOf, NetworkOf;
    var kind, version := v => ReadConstant(v, 0x2b), v => ReadConstant(v, 1);
    var hasKind := (d: MetadataDraft) => if d.structType then Some(true) else None;
    forall f, d ensures SetsBy(METADATA_SPEC, 0x01, kind, hasKind, f, d) {
    }
    SetOnce(METADATA_SPEC, 0x01, kind, hasKind, bs, NO_METADATA);
    var hasVersion := (d: MetadataDraft) => if d.version then Some(true) else None;
    forall f, d ensures SetsBy(METADATA_SPEC, 0x02, version, hasVersion, f, d) {
    }
    SetOnce(METADATA_SPEC, 0x02, version, hasVersion, bs, NO_METADATA);
  }

  lemma MetadataCodeFields(bs: seq<byte>)
    requires RunTlv(METADATA_SPEC, bs, {}, NO_METADATA).Some?
    ensures var d := RunTlv(METADATA_SPEC, bs, {}, NO_METADATA).value;
            Maybe(bs, 0xd0, ReadOpType, d.opType) && Maybe(bs, 0xd2, ReadNetwork, d.network)
  {
    hide RunTlv, Repeated, GetUint, GetU32, GetU64, IsCString, OpTypeOf, NetworkOf, Maybe;
    var op := (d: MetadataDraft) => d.opType;
    forall f, d ensures SetsBy(METADATA_SPEC, 0xd0, ReadOpType, op, f, d) {
    }
    SetOnce(METADATA_SPEC, 0xd0, ReadOpType, op, bs, NO_METADATA);
    var network := (d: MetadataDraft) => d.network;
    forall f, d ensures SetsBy(METADATA_SPEC, 0xd2, ReadNetwork, network, f, d) {
    }
    SetOnce(METADATA_SPEC, 0xd2, ReadNetwork, network, bs, NO_METADATA);
  }

  /** Accepted metadata are the reading of their fields, each of which occurs once; three of them may be missing. */
  lemma MetadataFields(bs: seq<byte>, pki: Pki)
    requires ParseMetadata(bs, pki).Some?
    ensures var m := ParseMetadata(bs, pki).value;
            && Sole(bs, 0x01, v => ReadConstant(v, 0x2b)) == Some(true)
            && Sole(bs, 0x02, v => ReadConstant(v, 1)) == Some(true)
            && Sole(bs, 0xd0, ReadOpType) == Some(m.opType) && Sole(bs, 0xd1, GetU32) == Some(m.assetId)
            && Sole(bs, 0x24, ReadTicker) == Some(m.ticker) && Sole(bs, 0xd2, ReadNetwork) == Some(m.network)
            && Maybe(bs, 0xd3, ReadAddress, m.builderAddr) && Maybe(bs, 0xd4, GetU64, m.margin)
            && Maybe(bs, 0xd5, GetU32, m.leverage)
  {
    hide RunTlv, Repeated, Sole, ReadConstant, ReadOpType, ReadTicker, ReadNetwork, GetU32, GetU64;
    MetadataAssetFields(bs);
    MetadataAmountFields(bs);
    MetadataConstantFields(bs);
    MetadataCodeFields(bs);
  }
}
