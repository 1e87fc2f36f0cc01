/** The entities of the application: metadata, requests and actions. */
module Model {
  import opened Bytes

  const ADDRESS_LENGTH := 20
  const BULK_MAX_SIZE := 5
  const NUMERIC_STRING_LENGTH := 21
  const ASSET_TICKER_LENGTH := 48
  const CLOID_BYTES := 16

  /** What a C string field holds after a successful parse: 1 to max bytes, none of them NUL. */
  predicate IsCString(s: seq<byte>, max: nat) {
    1 <= |s| <= max && forall i :: 0 <= i < |s| ==> s[i] != 0
  }

  predicate IsNumeric(s: seq<byte>) { IsCString(s, NUMERIC_STRING_LENGTH) }

  type Numeric = s: seq<byte> | IsNumeric(s) witness [48]

  predicate IsTicker(s: seq<byte>) { IsCString(s, ASSET_TICKER_LENGTH) }

  type Ticker = s: seq<byte> | IsTicker(s) witness [48]

  type Address = s: seq<byte> | |s| == ADDRESS_LENGTH witness Zeros(20)

  /** A client order id, kept as its 16 bytes; its text is "0x" and 32 hex digits. */
  type Cloid = s: seq<byte> | |s| == CLOID_BYTES witness Zeros(16)

  type Batch<T> = s: seq<T> | |s| <= BULK_MAX_SIZE witness []

  datatype Tif = Alo | Ioc | Gtc
  datatype Tpsl = TakeProfit | StopLoss
  datatype Grouping = Na | NormalTpsl | PositionTpsl
  datatype Abstraction = Disabled | UnifiedAccount | PortfolioMargin
  datatype Network = Mainnet | Testnet

  datatype OrderKind =
    | Limit(tif: Tif)
    | Trigger(isMarket: bool, triggerPx: Numeric, tpsl: Tpsl)

  datatype OrderRequest = OrderRequest(
    asset: u32,
    isBuy: bool,
    limitPx: Numeric,
    sz: Numeric,
    reduceOnly: bool,
    kind: OrderKind,
    cloid: Option<Cloid>)

  datatype ModifyRequest = ModifyRequest(oid: u64, order: OrderRequest)
  datatype CancelRequest = CancelRequest(asset: u32, oid: u64)
  datatype BuilderInfo = BuilderInfo(builder: Address, fee: u64)

  datatype Body =
    | BulkOrder(orders: Batch<OrderRequest>, grouping: Grouping, builder: Option<BuilderInfo>)
    | BulkModify(edits: Batch<ModifyRequest>)
    | BulkCancel(cancels: Batch<CancelRequest>)
    | UpdateLeverage(asset: u32, isCross: bool, leverage: u32)
    | ApproveBuilderFee(feeChainId: u64, maxFeeRate: Numeric, feeBuilder: Address)
    | UpdateIsolatedMargin(marginAsset: u32, marginIsBuy: bool, ntli: i64)
    | UserSetAbstraction(abstractionChainId: u64, abstraction: Abstraction)

  datatype Action = Action(body: Body, nonce: u64)

  datatype ActionType =
    | TBulkOrder | TBulkModify | TBulkCancel | TUpdateLeverage | TApproveBuilderFee
    | TUpdateIsolatedMargin | TUserSetAbstraction

  function TypeOf(b: Body): ActionType {
    match b
    case BulkOrder(_, _, _) => TBulkOrder
    case BulkModify(_) => TBulkModify
    case BulkCancel(_) => TBulkCancel
    case UpdateLeverage(_, _, _) => TUpdateLeverage
    case ApproveBuilderFee(_, _, _) => TApproveBuilderFee
    case UpdateIsolatedMargin(_, _, _) => TUpdateIsolatedMargin
    case UserSetAbstraction(_, _) => TUserSetAbstraction
  }

  /** Every operation type that metadata can carry (OP_TYPE_UPDATE_LEVERAGE is refused at parse time). */
  datatype OpType = OpOrder | OpModify | OpCancel | OpClose | OpUpdateMargin | OpCancelSl | OpCancelTp | OpCancelTpSl

  datatype Metadata = Metadata(
    opType: OpType,
    assetId: u32,
    ticker: Ticker,
    network: Network,
    builderAddr: Option<Address>,
    margin: Option<u64>,
    leverage: Option<u32>)

  /** Every asset an action names is the one given. */
  predicate AssetsAre(b: Body, asset: u32) {
    match b
    case BulkOrder(orders, _, _) => forall i :: 0 <= i < |orders| ==> orders[i].asset == asset
    case BulkModify(edits) => forall i :: 0 <= i < |edits| ==> edits[i].order.asset == asset
    case BulkCancel(cancels) => forall i :: 0 <= i < |cancels| ==> cancels[i].asset == asset
    case UpdateLeverage(a, _, _) => a == asset
    case UpdateIsolatedMargin(a, _, _) => a == asset
    case ApproveBuilderFee(_, _, _) => true
    case UserSetAbstraction(_, _) => true
  }

  /** Bulk lists that the parser accepts hold at least one request. */
  predicate NonEmptyBatch(b: Body) {
    match b
    case BulkOrder(orders, _, _) => |orders| >= 1
    case BulkModify(edits) => |edits| >= 1
    case BulkCancel(cancels) => |cancels| >= 1
    case _ => true
  }
}
