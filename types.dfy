/** The vocabulary shared by the trade component (src/component/trade/index.ts)
    and its form (src/component/trade/form.ts): trade direction, assets,
    the error map's keys and messages, route hops and the TWAP plan. */
module TradeTypes {
  import opened Common

  /** The SDK's `TradeType`. */
  datatype TradeType = Sell | Buy

  /** The fields of an SDK `PoolAsset` the trade logic reads. */
  datatype Asset = Asset(id: string, symbol: string)

  /** The keys the trade component writes into its error object. */
  datatype ErrorKey = BalanceKey | TradeKey | PoolKey

  /** Translated error messages, as opaque i18n tokens. `NoMessage` is the
      `undefined` that translateTradeError returns for a code it does not know. */
  datatype Message =
    | BalanceMsg
    | InvalidPairMsg
    | InsufficientTradingAmountMsg
    | MaxOutRatioExceededMsg
    | MaxInRatioExceededMsg
    | NoMessage

  /** One hop of a route: the pool's input and output asset ids and the
      router's error codes for it. */
  datatype Swap = Swap(assetIn: string, assetOut: string, errors: seq<string>)

  /** The SDK's `TradeTwapError`; every value is a non-empty enum string. */
  datatype TwapError = OrderTooBig | OtherTwapError(name: string)

  /** A TWAP (split order) plan as the form reads it. `orderFee`,
      `orderFeePct` and `orderPriceImpactPct` come from the plan's single
      order (`twap.trade.toHuman()`). */
  datatype TwapPlan = TwapPlan(
    tradeError: Option<TwapError>,
    tradeReps: real,
    amountIn: real,
    amountOut: real,
    amountInUsd: real,
    amountOutUsd: real,
    orderSlippage: real,
    orderFee: real,
    orderFeePct: real,
    orderPriceImpactPct: real)

  /** The trade state's error object: at most one message per key. */
  type ErrorMap = map<ErrorKey, Message>
}
