/** The trade component (src/component/trade/index.ts): the swap form's
    state and every synchronous rewrite of it.

    The component's asynchronous calls (a sell or buy quote from the router,
    a spot price, a TWAP plan) are not awaited here. An operation that
    starts one returns it as a `Request`, and the reply is applied by a
    separate commit step that receives it as a parameter. The first half of
    the module states each step as a function over a snapshot `App`; the
    `TradeApp` class at the end performs the same steps on its fields and
    proves that it matches them. */
module TradeComponent {
  import opened Common
  import opened Amount
  import opened TradeTypes

  // ----- state -----

  /** Quote details the form only displays: priceImpactPct, tradeFee,
      tradeFeePct and tradeFeeRange of the router's answer. */
  datatype QuoteDetails = QuoteDetails(priceImpactPct: string, tradeFee: string, tradeFeePct: string, tradeFeeRange: string)

  /** `TradeState`: amounts are the decimal strings the user typed or the
      router returned; balances are formatted human amounts. */
  datatype TradeState = TradeState(
    tradeType: TradeType,
    assetIn: Option<Asset>,
    assetOut: Option<Asset>,
    amountIn: Option<string>,
    amountOut: Option<string>,
    amountInUsd: Option<string>,
    amountOutUsd: Option<string>,
    balanceIn: Option<real>,
    balanceOut: Option<real>,
    inProgress: bool,
    spotPrice: Option<string>,
    afterSlippage: Option<string>,
    details: QuoteDetails,
    swaps: seq<Swap>,
    error: ErrorMap)

  /** `TradeTwapState`: whether TWAP is switched on, whether a plan is being
      computed, and the last plan. */
  datatype TwapState = TwapState(active: bool, inProgress: bool, twap: Option<TwapPlan>)

  /** Everything the component's methods rewrite: `trade`, `tradeTwap`,
      the prepared transaction `tx` and the active asset symbol `asset.active`. */
  datatype App = App(trade: TradeState, tradeTwap: TwapState, tx: Option<string>, active: Option<string>)

  /** Which asset ids may be sold and bought (`isAssetInAllowed` /
      `isAssetOutAllowed` over the pool list). */
  datatype Market = Market(inAllowed: set<string>, outAllowed: set<string>)

  /** What the component reads but never writes: whether an account is
      connected, the account's balances by asset id, the market, and the
      `twap` feature flag. */
  datatype Env = Env(account: bool, balances: map<string, Rate>, market: Market, twapAllowed: bool)

  /** An asynchronous call the step started. */
  datatype Request =
    | NoRequest
    | SellQuote(sellIn: Asset, sellOut: Asset, amountIn: Option<string>)
    | BuyQuote(buyIn: Asset, buyOut: Asset, amountOut: Option<string>)
    | SpotPriceQuote(spotIn: Asset, spotOut: Asset)
    | TwapQuote(twapType: TradeType)

  /** The state after a step and the call it started. */
  datatype Outcome = Outcome(app: App, request: Request)

  /** The router's answer to a quote (`TradeInfo`, with `trade.toHuman()`
      spread out), together with the USD values the component derives from it. */
  datatype Quote = Quote(
    tradeType: TradeType,
    amountIn: string,
    amountOut: string,
    spotPrice: string,
    details: QuoteDetails,
    swaps: seq<Swap>,
    amountInUsd: string,
    amountOutUsd: string,
    slippage: string,
    transaction: string)

  // ----- queries -----

  predicate IsSwapSelected(t: TradeState)
  {
    t.assetIn.Some? && t.assetOut.Some?
  }

  predicate IsSwapEmpty(t: TradeState)
  {
    t.amountIn.None? && t.amountOut.None?
  }

  /** An amount field cleared by the user: the empty string or "0". */
  predicate IsEmptyAmount(amount: string)
  {
    amount == "" || amount == "0"
  }

  /** `asset?.id` is truthy: the asset is there and its id is not "". */
  predicate HasId(a: Option<Asset>)
  {
    a.Some? && a.value.id != ""
  }

  /** The pair cannot be traded: both ids are set and they are equal, or the
      input cannot be sold, or the output cannot be bought. */
  predicate IsPoolError(t: TradeState, m: Market)
  {
    HasId(t.assetIn) && HasId(t.assetOut)
    && (t.assetIn.value.id == t.assetOut.value.id
        || t.assetIn.value.id !in m.inAllowed
        || t.assetOut.value.id !in m.outAllowed)
  }

  /** Switching is allowed unless both ids are set and the reversed pair is
      not tradeable. */
  predicate IsSwitchEnabled(t: TradeState, m: Market)
  {
    !HasId(t.assetIn) || !HasId(t.assetOut)
    || (t.assetOut.value.id in m.inAllowed && t.assetIn.value.id in m.outAllowed)
  }

  predicate HasError(t: TradeState)
  {
    |t.error| > 0
  }

  /** The asset's symbol is the active one (`symbol == this.asset.active`). */
  predicate IsActive(a: Asset, active: Option<string>)
  {
    active == Some(a.symbol)
  }

  // ----- resetting -----

  /** `resetTrade(withError)`: drop the amounts, their USD values, the route,
      the balance and trade errors (or every error when `withError`) and the
      TWAP plan. */
  function Reset(app: App, withError: bool): App
  {
    var t := app.trade;
    var error := if withError then map[] else t.error - {BalanceKey, TradeKey};
    app.(trade := t.(inProgress := false, amountIn := None, amountInUsd := None,
                     amountOut := None, amountOutUsd := None, error := error, swaps := []),
         tradeTwap := app.tradeTwap.(inProgress := false, twap := None))
  }

  // ----- validators -----

  /** validateEnoughBalance would read the balance of an asset the account
      has no entry for, and throw. */
  predicate BalanceThrows(t: TradeState, env: Env)
  {
    HasId(t.assetIn) && t.amountIn.Some? && t.amountIn.value != "" && env.account
    && t.assetIn.value.id !in env.balances
  }

  /** `validateEnoughBalance`: with an input asset, a non-empty input amount
      and an account, the balance error is set exactly when the amount, in
      smallest units, exceeds the balance. A missing balance entry throws
      before anything is written, so the state is unchanged. */
  function BalanceValidated(t: TradeState, env: Env): TradeState
  {
    if !HasId(t.assetIn) || t.amountIn.None? || t.amountIn.value == "" || !env.account then t
    else if t.assetIn.value.id !in env.balances then t
    else
      var balance := env.balances[t.assetIn.value.id];
      var amount := ParseDecimal(t.amountIn.value);
      if ScaledExceeds(amount, balance.decimals, balance.amount)
      then t.(error := t.error[BalanceKey := BalanceMsg])
      else t.(error := t.error - {BalanceKey})
  }

  /** `translateTradeError`: the message for a router error code. */
  function TranslateTradeError(code: string): Message
  {
    if code == "InsufficientTradingAmount" then InsufficientTradingAmountMsg
    else if code == "MaxOutRatioExceeded" then MaxOutRatioExceededMsg
    else if code == "MaxInRatioExceeded" then MaxInRatioExceededMsg
    else NoMessage
  }

  /** `swaps.find(swap => swap.errors.length > 0)`, as an index. */
  function FirstWithErrors(swaps: seq<Swap>): (r: Option<nat>)
    ensures r.Some? ==> r.value < |swaps| && |swaps[r.value].errors| > 0
    ensures r.Some? ==> forall j | 0 <= j < r.value :: |swaps[j].errors| == 0
    ensures r.None? ==> forall j | 0 <= j < |swaps| :: |swaps[j].errors| == 0
  {
    if swaps == [] then None
    else if |swaps[0].errors| > 0 then Some(0)
    else match FirstWithErrors(swaps[1..])
      case None => None
      case Some(i) => Some(i + 1)
  }

  /** `validateTrade(type)`: for a Buy the route is first reversed in place;
      the trade error is then the translated first code of the first hop
      that has errors, and is removed when no hop has any. */
  function TradeValidated(t: TradeState, tradeType: TradeType): TradeState
  {
    if |t.swaps| == 0 then t
    else
      var swaps := if tradeType == Buy then Reverse(t.swaps) else t.swaps;
      match FirstWithErrors(swaps)
      case Some(i) => t.(swaps := swaps, error := t.error[TradeKey := TranslateTradeError(swaps[i].errors[0])])
      case None => t.(swaps := swaps, error := t.error - {TradeKey})
  }

  /** `validatePool`: an untradeable pair sets the pool error and resets the
      trade; a tradeable one removes the pool error. */
  function PoolValidated(app: App, env: Env): App
  {
    if IsPoolError(app.trade, env.market)
    then Reset(app.(trade := app.trade.(error := app.trade.error[PoolKey := InvalidPairMsg])), false)
    else app.(trade := app.trade.(error := app.trade.error - {PoolKey}))
  }

  // ----- quotes -----

  /** `recalculateTrade`: re-quote the selected pair from the side whose
      symbol is active. Nothing happens without a pair, without an amount,
      or with a pool error. */
  function RecalculatedRequest(app: App, env: Env): Request
  {
    var t := app.trade;
    if !IsSwapSelected(t) || IsSwapEmpty(t) || IsPoolError(t, env.market) then NoRequest
    else if IsActive(t.assetIn.value, app.active) then SellQuote(t.assetIn.value, t.assetOut.value, t.amountIn)
    else if IsActive(t.assetOut.value, app.active) then BuyQuote(t.assetIn.value, t.assetOut.value, t.amountOut)
    else NoRequest
  }

  /** The TWAP plan request `calculateSellTwap`/`calculateBuyTwap` make
      when the feature is on and TWAP is active. */
  function TwapRequest(app: App, env: Env, tradeType: TradeType): Request
  {
    if env.twapAllowed && app.tradeTwap.active then TwapQuote(tradeType) else NoRequest
  }

  /** The merge of `calculateSell`/`calculateBuy`: every quoted field
      overrides the state except the amount on the side the user typed
      (`amountIn` for a sell, `amountOut` for a buy). */
  function Merged(t: TradeState, tradeType: TradeType, assetIn: Asset, assetOut: Asset, q: Quote): TradeState
  {
    t.(inProgress := false, assetIn := Some(assetIn), amountInUsd := Some(q.amountInUsd),
       assetOut := Some(assetOut), amountOutUsd := Some(q.amountOutUsd), afterSlippage := Some(q.slippage),
       tradeType := q.tradeType,
       amountIn := if tradeType == Sell then t.amountIn else Some(q.amountIn),
       amountOut := if tradeType == Buy then t.amountOut else Some(q.amountOut),
       spotPrice := Some(q.spotPrice), details := q.details, swaps := q.swaps)
  }

  /** The rest of `calculateSell`/`calculateBuy` once the router answered:
      a failed quote (`None`) has already reset the trade and stops there;
      otherwise the quote is merged, the transaction kept, the trade and the
      balance validated, and a TWAP plan requested. */
  function QuoteCommitted(app: App, env: Env, tradeType: TradeType, assetIn: Asset, assetOut: Asset, reply: Option<Quote>): Outcome
  {
    match reply
    case None => Outcome(Reset(app, false), NoRequest)
    case Some(q) =>
      var t := TradeValidated(Merged(app.trade, tradeType, assetIn, assetOut, q), tradeType);
      var app' := app.(trade := BalanceValidated(t, env), tx := Some(q.transaction));
      Outcome(app', if BalanceThrows(t, env) then NoRequest else TwapRequest(app', env, tradeType))
  }

  /** A TWAP plan arrived. */
  function TwapCommitted(app: App, plan: TwapPlan): App
  {
    app.(tradeTwap := app.tradeTwap.(inProgress := false, twap := Some(plan)))
  }

  /** A spot price arrived (its rendering as a string is done by the caller). */
  function SpotPriceCommitted(app: App, spotPrice: string): App
  {
    app.(trade := app.trade.(inProgress := false, spotPrice := Some(spotPrice)))
  }

  /** `recalculateSpotPrice`: a request for the selected pair, if any. */
  function SpotPriceRequest(t: TradeState): Request
  {
    if IsSwapSelected(t) then SpotPriceQuote(t.assetIn.value, t.assetOut.value) else NoRequest
  }

  // ----- amounts -----

  /** `updateAmountIn`: an empty amount resets the trade; with a tradeable
      pair the amount is set, the output cleared and a sell quoted;
      otherwise only the amount is stored. */
  function AmountInUpdated(app: App, env: Env, amount: string): Outcome
  {
    var t := app.trade;
    if IsEmptyAmount(amount) then Outcome(Reset(app, false), NoRequest)
    else if IsSwapSelected(t) && !IsPoolError(t, env.market) then
      Outcome(app.(trade := t.(inProgress := true, amountIn := Some(amount), amountOut := None),
                   tradeTwap := app.tradeTwap.(inProgress := true, twap := None)),
              SellQuote(t.assetIn.value, t.assetOut.value, Some(amount)))
    else Outcome(app.(trade := t.(amountIn := Some(amount))), NoRequest)
  }

  /** `updateAmountOut`: the mirror image of AmountInUpdated, quoting a buy. */
  function AmountOutUpdated(app: App, env: Env, amount: string): Outcome
  {
    var t := app.trade;
    if IsEmptyAmount(amount) then Outcome(Reset(app, false), NoRequest)
    else if IsSwapSelected(t) && !IsPoolError(t, env.market) then
      Outcome(app.(trade := t.(inProgress := true, amountIn := None, amountOut := Some(amount)),
                   tradeTwap := app.tradeTwap.(inProgress := true, twap := None)),
              BuyQuote(t.assetIn.value, t.assetOut.value, Some(amount)))
    else Outcome(app.(trade := t.(amountOut := Some(amount))), NoRequest)
  }

  // ----- switching -----

  /** `switchAssets(amountIn, amountOut, progress)`: exchange the assets and
      their balances, install the given amounts, drop the TWAP plan. */
  function AssetsSwitched(app: App, amountIn: Option<string>, amountOut: Option<string>, progress: bool): App
  {
    var t := app.trade;
    app.(trade := t.(inProgress := progress, assetIn := t.assetOut, assetOut := t.assetIn,
                     balanceIn := t.balanceOut, balanceOut := t.balanceIn,
                     amountIn := amountIn, amountOut := amountOut),
         tradeTwap := app.tradeTwap.(inProgress := false, twap := None))
  }

  /** `switch()`: with no pair, transpose the amounts; with a pair that may
      not be switched, do nothing; with no amounts, switch and refresh the
      spot price; otherwise keep the active side's amount, moved to the other
      side, and quote from it. */
  function Switched(app: App, env: Env): Outcome
  {
    var t := app.trade;
    if !IsSwapSelected(t) then Outcome(AssetsSwitched(app, t.amountOut, t.amountIn, false), NoRequest)
    else if !IsSwitchEnabled(t, env.market) then Outcome(app, NoRequest)
    else if IsSwapEmpty(t) then
      var app' := AssetsSwitched(app, t.amountOut, t.amountIn, true);
      Outcome(app', SpotPriceRequest(app'.trade))
    else if IsActive(t.assetOut.value, app.active) then
      var app' := AssetsSwitched(app, t.amountOut, None, true);
      Outcome(app', SellQuote(t.assetOut.value, t.assetIn.value, t.amountOut))
    else if IsActive(t.assetIn.value, app.active) then
      var app' := AssetsSwitched(app, None, t.amountIn, true);
      Outcome(app', BuyQuote(t.assetOut.value, t.assetIn.value, t.amountIn))
    else Outcome(app, NoRequest)
  }

  // ----- changing assets -----

  /** `changeAssetIn(previous, asset)`. Picking the output asset switches.
      Without an output asset only the input is set. Without amounts the
      input is set and the spot price refreshed. Otherwise, when the replaced
      asset was the active one, the input amount is kept and a sell quoted;
      else the output amount is kept and a buy quoted. */
  function AssetInChanged(app: App, env: Env, previous: Option<string>, asset: Asset): Outcome
  {
    var t := app.trade;
    if t.assetOut.Some? && asset.id == t.assetOut.value.id then Switched(app, env)
    else if t.assetOut.None? then
      Outcome(app.(trade := t.(assetIn := Some(asset), balanceIn := None)), NoRequest)
    else if IsSwapEmpty(t) then
      var app' := app.(trade := t.(assetIn := Some(asset), balanceOut := None));
      Outcome(app', SpotPriceRequest(app'.trade))
    else
      var twap := app.tradeTwap.(inProgress := true, twap := None);
      if previous == app.active then
        Outcome(app.(trade := t.(inProgress := true, assetIn := Some(asset), balanceIn := None, amountOut := None),
                     tradeTwap := twap, active := Some(asset.symbol)),
                SellQuote(asset, t.assetOut.value, t.amountIn))
      else
        Outcome(app.(trade := t.(inProgress := true, assetIn := Some(asset), balanceIn := None, amountIn := None),
                     tradeTwap := twap),
                BuyQuote(asset, t.assetOut.value, t.amountOut))
  }

  /** `changeAssetOut(previous, asset)`: the mirror image of AssetInChanged. */
  function AssetOutChanged(app: App, env: Env, previous: Option<string>, asset: Asset): Outcome
  {
    var t := app.trade;
    if t.assetIn.Some? && asset.id == t.assetIn.value.id then Switched(app, env)
    else if t.assetIn.None? then
      Outcome(app.(trade := t.(assetOut := Some(asset), balanceOut := None)), NoRequest)
    else if IsSwapEmpty(t) then
      var app' := app.(trade := t.(inProgress := true, assetOut := Some(asset), balanceOut := None));
      Outcome(app', SpotPriceRequest(app'.trade))
    else
      var twap := app.tradeTwap.(inProgress := true, twap := None);
      if previous == app.active then
        Outcome(app.(trade := t.(inProgress := true, assetOut := Some(asset), balanceOut := None, amountIn := None),
                     tradeTwap := twap, active := Some(asset.symbol)),
                BuyQuote(t.assetIn.value, asset, t.amountOut))
      else
        Outcome(app.(trade := t.(inProgress := true, assetOut := Some(asset), balanceOut := None, amountOut := None),
                     tradeTwap := twap),
                SellQuote(t.assetIn.value, asset, t.amountIn))
  }

  // ----- balances -----

  /** The formatted balance of an asset, when the account has one. */
  function BalanceOf(env: Env, a: Option<Asset>): Option<real>
  {
    if a.Some? && a.value.id in env.balances
    then Some(FormatAmount(env.balances[a.value.id].amount, env.balances[a.value.id].decimals))
    else None
  }

  /** `updateBalances`: both balances re-read from the account. */
  function BalancesUpdated(t: TradeState, env: Env): TradeState
  {
    t.(balanceIn := BalanceOf(env, t.assetIn), balanceOut := BalanceOf(env, t.assetOut))
  }

  /** `syncBalances`: with an account, re-read the balances and re-check the input amount. */
  function BalancesSynced(t: TradeState, env: Env): TradeState
  {
    if env.account then BalanceValidated(BalancesUpdated(t, env), env) else t
  }

  // ----- form events -----

  /** The form's `asset-input-changed` event: the typed side becomes active,
      its amount is updated, and the balance is re-checked. */
  function InputChanged(app: App, env: Env, id: string, symbol: string, value: string): Outcome
  {
    var app1 := app.(active := Some(symbol));
    var o := if id == "assetIn" then AmountInUpdated(app1, env, value)
             else if id == "assetOut" then AmountOutUpdated(app1, env, value)
             else Outcome(app1, NoRequest);
    Outcome(o.app.(trade := BalanceValidated(o.app.trade, env)), o.request)
  }

  /** The selector's `asset-clicked` event for selector `id`, replacing the
      asset whose symbol was `previous`: change that side, re-read the
      balances, validate the pool. */
  function AssetClicked(app: App, env: Env, id: string, previous: Option<string>, asset: Asset): Outcome
  {
    var o := if id == "assetIn" then AssetInChanged(app, env, previous, asset)
             else if id == "assetOut" then AssetOutChanged(app, env, previous, asset)
             else Outcome(app, NoRequest);
    var app1 := o.app.(trade := BalancesUpdated(o.app.trade, env));
    Outcome(PoolValidated(app1, env), o.request)
  }

  /** The form's `asset-switch-clicked` event: switch, then validate the pool. */
  function SwitchClicked(app: App, env: Env): Outcome
  {
    var o := Switched(app, env);
    Outcome(PoolValidated(o.app, env), o.request)
  }

  /** The form's `twap-toggled` event. */
  function TwapToggled(app: App, env: Env, active: bool): Outcome
  {
    var app1 := app.(tradeTwap := app.tradeTwap.(active := active));
    Outcome(app1, TwapRequest(app1, env, app.trade.tradeType))
  }

  // ----- the component -----

  /** The component's mutable state, rewritten step by step as in the source. */
  class TradeApp {
    var trade: TradeState
    var tradeTwap: TwapState
    var tx: Option<string>
    var active: Option<string>

    function State(): App
      reads this
    {
      App(trade, tradeTwap, tx, active)
    }

    constructor(initial: App)
      ensures State() == initial
    {
      trade := initial.trade;
      tradeTwap := initial.tradeTwap;
      tx := initial.tx;
      active := initial.active;
    }

    method ResetTrade(withError: bool)
      modifies this
      ensures State() == Reset(old(State()), withError)
    {
      var error := trade.error - {BalanceKey, TradeKey};
      if withError {
        error := map[];
      }
      trade := trade.(inProgress := false, amountIn := None, amountInUsd := None,
                      amountOut := None, amountOutUsd := None, error := error, swaps := []);
      tradeTwap := tradeTwap.(inProgress := false, twap := None);
    }

    /** Returns whether the source would have thrown (no balance entry). */
    method ValidateEnoughBalance(env: Env) returns (threw: bool)
      modifies this
      ensures threw == BalanceThrows(old(trade), env)
      ensures State() == old(State()).(trade := BalanceValidated(old(trade), env))
    {
      threw := false;
      if !HasId(trade.assetIn) || trade.amountIn.None? || trade.amountIn.value == "" || !env.account {
        return;
      }
      if trade.assetIn.value.id !in env.balances {
        threw := true;
        return;
      }
      var balance := env.balances[trade.assetIn.value.id];
      var amount := ParseDecimal(trade.amountIn.value);
      if ScaledExceeds(amount, balance.decimals, balance.amount) {
        trade := trade.(error := trade.error[BalanceKey := BalanceMsg]);
      } else {
        trade := trade.(error := trade.error - {BalanceKey});
      }
    }

    method ValidateTrade(tradeType: TradeType)
      modifies this
      ensures State() == old(State()).(trade := TradeValidated(old(trade), tradeType))
    {
      if |trade.swaps| == 0 {
        return;
      }
      if tradeType == Buy {
        trade := trade.(swaps := Reverse(trade.swaps));
      }
      var swaps := trade.swaps;
      var i := 0;
      while i < |swaps| && |swaps[i].errors| == 0
        invariant 0 <= i <= |swaps|
        invariant forall j | 0 <= j < i :: |swaps[j].errors| == 0
      {
        i := i + 1;
      }
      if i < |swaps| {
        trade := trade.(error := trade.error[TradeKey := TranslateTradeError(swaps[i].errors[0])]);
      } else {
        trade := trade.(error := trade.error - {TradeKey});
      }
    }

    method ValidatePool(env: Env)
      modifies this
      ensures State() == PoolValidated(old(State()), env)
    {
      if IsPoolError(trade, env.market) {
        trade := trade.(error := trade.error[PoolKey := InvalidPairMsg]);
        ResetTrade(false);
      } else {
        trade := trade.(error := trade.error - {PoolKey});
      }
    }

    method RecalculateTrade(env: Env) returns (req: Request)
      ensures req == RecalculatedRequest(State(), env)
    {
      if !IsSwapSelected(trade) || IsSwapEmpty(trade) || IsPoolError(trade, env.market) {
        req := NoRequest;
      } else if IsActive(trade.assetIn.value, active) {
        req := SellQuote(trade.assetIn.value, trade.assetOut.value, trade.amountIn);
      } else if IsActive(trade.assetOut.value, active) {
        req := BuyQuote(trade.assetIn.value, trade.assetOut.value, trade.amountOut);
      } else {
        req := NoRequest;
      }
    }

    method UpdateAmountIn(env: Env, amount: string) returns (req: Request)
      modifies this
      ensures Outcome(State(), req) == AmountInUpdated(old(State()), env, amount)
    {
      req := NoRequest;
      if IsEmptyAmount(amount) {
        ResetTrade(false);
        return;
      }
      if IsSwapSelected(trade) && !IsPoolError(trade, env.market) {
        trade := trade.(inProgress := true, amountIn := Some(amount), amountOut := None);
        tradeTwap := tradeTwap.(inProgress := true, twap := None);
        req := SellQuote(trade.assetIn.value, trade.assetOut.value, Some(amount));
      } else {
        trade := trade.(amountIn := Some(amount));
      }
    }

    method UpdateAmountOut(env: Env, amount: string) returns (req: Request)
      modifies this
      ensures Outcome(State(), req) == AmountOutUpdated(old(State()), env, amount)
    {
      req := NoRequest;
      if IsEmptyAmount(amount) {
        ResetTrade(false);
        return;
      }
      if IsSwapSelected(trade) && !IsPoolError(trade, env.market) {
        trade := trade.(inProgress := true, amountIn := None, amountOut := Some(amount));
        tradeTwap := tradeTwap.(inProgress := true, twap := None);
        req := BuyQuote(trade.assetIn.value, trade.assetOut.value, Some(amount));
      } else {
        trade := trade.(amountOut := Some(amount));
      }
    }

    method SwitchAssets(amountIn: Option<string>, amountOut: Option<string>, progress: bool)
      modifies this
      ensures State() == AssetsSwitched(old(State()), amountIn, amountOut, progress)
    {
      trade := trade.(inProgress := progress, assetIn := trade.assetOut, assetOut := trade.assetIn,
                      balanceIn := trade.balanceOut, balanceOut := trade.balanceIn,
                      amountIn := amountIn, amountOut := amountOut);
      tradeTwap := tradeTwap.(inProgress := false, twap := None);
    }

    method Switch(env: Env) returns (req: Request)
      modifies this
      ensures Outcome(State(), req) == Switched(old(State()), env)
    {
      req := NoRequest;
      if !IsSwapSelected(trade) {
        SwitchAssets(trade.amountOut, trade.amountIn, false);
      } else if !IsSwitchEnabled(trade, env.market) {
        return;
      } else if IsSwapEmpty(trade) {
        SwitchAssets(trade.amountOut, trade.amountIn, true);
        req := SpotPriceRequest(trade);
      } else if IsActive(trade.assetOut.value, active) {
        SwitchAssets(trade.amountOut, None, true);
        req := SellQuote(trade.assetIn.value, trade.assetOut.value, trade.amountIn);
      } else if IsActive(trade.assetIn.value, active) {
        SwitchAssets(None, trade.amountIn, true);
        req := BuyQuote(trade.assetIn.value, trade.assetOut.value, trade.amountOut);
      }
    }

    method ChangeAssetIn(env: Env, previous: Option<string>, asset: Asset) returns (req: Request)
      modifies this
      ensures Outcome(State(), req) == AssetInChanged(old(State()), env, previous, asset)
    {
      req := NoRequest;
      var assetOut := trade.assetOut;
      if assetOut.Some? && asset.id == assetOut.value.id {
        req := Switch(env);
        return;
      }
      if assetOut.None? {
        trade := trade.(assetIn := Some(asset), balanceIn := None);
        return;
      }
      if IsSwapEmpty(trade) {
        trade := trade.(assetIn := Some(asset), balanceOut := None);
        req := SpotPriceRequest(trade);
        return;
      }
      tradeTwap := tradeTwap.(inProgress := true, twap := None);
      if previous == active {
        trade := trade.(inProgress := true, assetIn := Some(asset), balanceIn := None, amountOut := None);
        active := Some(asset.symbol);
        req := SellQuote(asset, assetOut.value, trade.amountIn);
      } else {
        trade := trade.(inProgress := true, assetIn := Some(asset), balanceIn := None, amountIn := None);
        req := BuyQuote(asset, assetOut.value, trade.amountOut);
      }
    }

    method ChangeAssetOut(env: Env, previous: Option<string>, asset: Asset) returns (req: Request)
      modifies this
      ensures Outcome(State(), req) == AssetOutChanged(old(State()), env, previous, asset)
    {
      req := NoRequest;
      var assetIn := trade.assetIn;
      if assetIn.Some? && asset.id == assetIn.value.id {
        req := Switch(env);
        return;
      }
      if assetIn.None? {
        trade := trade.(assetOut := Some(asset), balanceOut := None);
        return;
      }
      if IsSwapEmpty(trade) {
        trade := trade.(inProgress := true, assetOut := Some(asset), balanceOut := None);
        req := SpotPriceRequest(trade);
        return;
      }
      tradeTwap := tradeTwap.(inProgress := true, twap := None);
      if previous == active {
        trade := trade.(inProgress := true, assetOut := Some(asset), balanceOut := None, amountIn := None);
        active := Some(asset.symbol);
        req := BuyQuote(assetIn.value, asset, trade.amountOut);
      } else {
        trade := trade.(inProgress := true, assetOut := Some(asset), balanceOut := None, amountOut := None);
        req := SellQuote(assetIn.value, asset, trade.amountIn);
      }
    }

    /** `calculateSell`/`calculateBuy` from the moment the router answered. */
    method CommitQuote(env: Env, tradeType: TradeType, assetIn: Asset, assetOut: Asset, reply: Option<Quote>)
      returns (req: Request)
      modifies this
      ensures Outcome(State(), req) == QuoteCommitted(old(State()), env, tradeType, assetIn, assetOut, reply)
    {
      req := NoRequest;
      if reply.None? {
        ResetTrade(false);
        return;
      }
      var q := reply.value;
      trade := Merged(trade, tradeType, assetIn, assetOut, q);
      tx := Some(q.transaction);
      ValidateTrade(tradeType);
      var threw := ValidateEnoughBalance(env);
      if threw {
        return;
      }
      if env.twapAllowed && tradeTwap.active {
        req := TwapQuote(tradeType);
      }
    }

    method CommitTwap(plan: TwapPlan)
      modifies this
      ensures State() == TwapCommitted(old(State()), plan)
    {
      tradeTwap := tradeTwap.(inProgress := false, twap := Some(plan));
    }

    method CommitSpotPrice(spotPrice: string)
      modifies this
      ensures State() == SpotPriceCommitted(old(State()), spotPrice)
    {
      trade := trade.(inProgress := false, spotPrice := Some(spotPrice));
    }

    method UpdateBalances(env: Env)
      modifies this
      ensures State() == old(State()).(trade := BalancesUpdated(old(trade), env))
    {
      trade := trade.(balanceIn := BalanceOf(env, trade.assetIn), balanceOut := BalanceOf(env, trade.assetOut));
    }

    method SyncBalances(env: Env)
      modifies this
      ensures State() == old(State()).(trade := BalancesSynced(old(trade), env))
    {
      if env.account {
        UpdateBalances(env);
        var _ := ValidateEnoughBalance(env);
      }
    }

    method OnAssetInputChanged(env: Env, id: string, symbol: string, value: string) returns (req: Request)
      modifies this
      ensures Outcome(State(), req) == InputChanged(old(State()), env, id, symbol, value)
    {
      active := Some(symbol);
      req := NoRequest;
      if id == "assetIn" {
        req := UpdateAmountIn(env, value);
      } else if id == "assetOut" {
        req := UpdateAmountOut(env, value);
      }
      var _ := ValidateEnoughBalance(env);
    }

    method OnAssetClicked(env: Env, id: string, previous: Option<string>, asset: Asset) returns (req: Request)
      modifies this
      ensures Outcome(State(), req) == AssetClicked(old(State()), env, id, previous, asset)
    {
      req := NoRequest;
      if id == "assetIn" {
        req := ChangeAssetIn(env, previous, asset);
      } else if id == "assetOut" {
        req := ChangeAssetOut(env, previous, asset);
      }
      UpdateBalances(env);
      ValidatePool(env);
    }

    method OnSwitchClicked(env: Env) returns (req: Request)
      modifies this
      ensures Outcome(State(), req) == SwitchClicked(old(State()), env)
    {
      req := Switch(env);
      ValidatePool(env);
    }

    method OnTwapToggled(env: Env, on: bool) returns (req: Request)
      modifies this
      ensures Outcome(State(), req) == TwapToggled(old(State()), env, on)
    {
      tradeTwap := tradeTwap.(active := on);
      req := NoRequest;
      if env.twapAllowed && tradeTwap.active {
        req := TwapQuote(trade.tradeType);
      }
    }
  }
}
