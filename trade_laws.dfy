/** What the trade component's steps promise, proved about the step
    functions of TradeComponent. */
module TradeLaws {
  import opened Common
  import opened Amount
  import opened TradeTypes
  import opened TradeComponent

  /** The fields a reset leaves alone. */
  predicate SameSelection(a: App, b: App)
  {
    a.trade.assetIn == b.trade.assetIn && a.trade.assetOut == b.trade.assetOut
    && a.trade.balanceIn == b.trade.balanceIn && a.trade.balanceOut == b.trade.balanceOut
    && a.trade.spotPrice == b.trade.spotPrice && a.active == b.active && a.tx == b.tx
  }

  /** The trade after a reset without `withError`: amounts, USD values and
      route gone, not in progress, balance and trade errors removed, pool
      error kept, TWAP plan gone. */
  predicate IsResetOf(r: App, app: App)
  {
    r.trade.amountIn.None? && r.trade.amountOut.None?
    && r.trade.amountInUsd.None? && r.trade.amountOutUsd.None?
    && r.trade.swaps == [] && !r.trade.inProgress
    && BalanceKey !in r.trade.error && TradeKey !in r.trade.error
    && (PoolKey in r.trade.error <==> PoolKey in app.trade.error)
    && (PoolKey in app.trade.error ==> r.trade.error[PoolKey] == app.trade.error[PoolKey])
    && r.tradeTwap.twap.None? && !r.tradeTwap.inProgress
    && SameSelection(r, app)
  }

  /** Clearing either amount field (to "" or "0") only resets the trade. */
  lemma EmptyAmountResets(app: App, env: Env, amount: string)
    requires IsEmptyAmount(amount)
    ensures var o := AmountInUpdated(app, env, amount); o.request == NoRequest && IsResetOf(o.app, app)
    ensures var o := AmountOutUpdated(app, env, amount); o.request == NoRequest && IsResetOf(o.app, app)
  {
  }

  /** Resetting twice is resetting once. */
  lemma ResetIdempotent(app: App, withError: bool)
    ensures Reset(Reset(app, withError), withError) == Reset(app, withError)
  {
  }

  /** A typed input amount: with a tradeable pair the output is cleared, the
      TWAP plan dropped and a sell of exactly that amount quoted; otherwise
      only the input amount changes. */
  lemma AmountInTyped(app: App, env: Env, amount: string)
    requires !IsEmptyAmount(amount)
    ensures var o := AmountInUpdated(app, env, amount);
      if IsSwapSelected(app.trade) && !IsPoolError(app.trade, env.market) then
        o.app.trade.amountIn == Some(amount) && o.app.trade.amountOut.None? && o.app.trade.inProgress
        && o.app.tradeTwap.inProgress && o.app.tradeTwap.twap.None?
        && o.request == SellQuote(app.trade.assetIn.value, app.trade.assetOut.value, Some(amount))
        && SameSelection(o.app, app)
      else
        o.request == NoRequest && o.app == app.(trade := app.trade.(amountIn := Some(amount)))
  {
  }

  /** The mirror image for the output amount, quoting a buy. */
  lemma AmountOutTyped(app: App, env: Env, amount: string)
    requires !IsEmptyAmount(amount)
    ensures var o := AmountOutUpdated(app, env, amount);
      if IsSwapSelected(app.trade) && !IsPoolError(app.trade, env.market) then
        o.app.trade.amountOut == Some(amount) && o.app.trade.amountIn.None? && o.app.trade.inProgress
        && o.app.tradeTwap.inProgress && o.app.tradeTwap.twap.None?
        && o.request == BuyQuote(app.trade.assetIn.value, app.trade.assetOut.value, Some(amount))
        && SameSelection(o.app, app)
      else
        o.request == NoRequest && o.app == app.(trade := app.trade.(amountOut := Some(amount)))
  {
  }

  /** validateTrade changes only the route and the error map. */
  lemma TradeValidatedFrame(t: TradeState, tradeType: TradeType)
    ensures var v := TradeValidated(t, tradeType); v == t.(swaps := v.swaps, error := v.error)
  {
  }

  /** validateEnoughBalance changes only the error map, and only its balance key. */
  lemma BalanceValidatedFrame(t: TradeState, env: Env)
    ensures var v := BalanceValidated(t, env); v == t.(error := v.error)
    ensures var v := BalanceValidated(t, env);
      forall k | k != BalanceKey :: (k in v.error <==> k in t.error) && (k in t.error ==> v.error[k] == t.error[k])
  {
  }

  /** A committed quote never overwrites the amount the user typed: a sell
      keeps amountIn and takes amountOut from the quote, a buy the reverse.
      Either way the pair is the one quoted, nothing is in progress and the
      slippage bound is the quote's. A failed quote only resets. */
  lemma {:induction false} CommitKeepsTypedSide(app: App, env: Env, tradeType: TradeType, assetIn: Asset, assetOut: Asset, reply: Option<Quote>)
    ensures var o := QuoteCommitted(app, env, tradeType, assetIn, assetOut, reply);
      reply.None? ==> o == Outcome(Reset(app, false), NoRequest)
    ensures var o := QuoteCommitted(app, env, tradeType, assetIn, assetOut, reply);
      reply.Some? ==>
        var t := o.app.trade;
        && (tradeType == Sell ==> t.amountIn == app.trade.amountIn && t.amountOut == Some(reply.value.amountOut))
        && (tradeType == Buy ==> t.amountOut == app.trade.amountOut && t.amountIn == Some(reply.value.amountIn))
        && t.assetIn == Some(assetIn) && t.assetOut == Some(assetOut)
        && !t.inProgress && t.afterSlippage == Some(reply.value.slippage)
        && o.app.tx == Some(reply.value.transaction)
        && (o.request.TwapQuote? ==> o.request == TwapQuote(tradeType) && env.twapAllowed && app.tradeTwap.active)
  {
    if reply.Some? {
      var m := Merged(app.trade, tradeType, assetIn, assetOut, reply.value);
      TradeValidatedFrame(m, tradeType);
      BalanceValidatedFrame(TradeValidated(m, tradeType), env);
    }
  }

  /** switchAssets exchanges the pair and the balances; switching back with
      the amounts transposed again restores the trade. */
  lemma SwitchAssetsInvolution(app: App, progress: bool, progress': bool)
    ensures var s := AssetsSwitched(app, app.trade.amountOut, app.trade.amountIn, progress);
      s.trade.assetIn == app.trade.assetOut && s.trade.assetOut == app.trade.assetIn
      && s.trade.balanceIn == app.trade.balanceOut && s.trade.balanceOut == app.trade.balanceIn
      && s.tradeTwap.twap.None?
    ensures var s := AssetsSwitched(app, app.trade.amountOut, app.trade.amountIn, progress);
      AssetsSwitched(s, app.trade.amountIn, app.trade.amountOut, progress').trade
        == app.trade.(inProgress := progress')
  {
  }

  /** Without a selected pair, switch is an involution up to the progress
      flags and the TWAP plan, and never asks for a quote. */
  lemma SwitchTwiceWithoutPair(app: App, env: Env)
    requires !IsSwapSelected(app.trade)
    ensures Switched(app, env).request == NoRequest
    ensures Switched(Switched(app, env).app, env).app
         == app.(trade := app.trade.(inProgress := false),
                 tradeTwap := app.tradeTwap.(inProgress := false, twap := None))
  {
    var s := Switched(app, env).app;
    assert !IsSwapSelected(s.trade);
  }

  /** The cases of switch with a selected pair: no change when switching is
      not allowed; otherwise the pair is exchanged and the active side's
      amount moves to the other side, which is quoted from it. */
  lemma SwitchWithPair(app: App, env: Env)
    requires IsSwapSelected(app.trade)
    ensures var o := Switched(app, env);
      !IsSwitchEnabled(app.trade, env.market) ==> o == Outcome(app, NoRequest)
    ensures var o := Switched(app, env); var t := app.trade;
      IsSwitchEnabled(t, env.market) && !IsSwapEmpty(t) && IsActive(t.assetOut.value, app.active) ==>
        o.app.trade.amountIn == t.amountOut && o.app.trade.amountOut.None?
        && o.app.trade.assetIn == t.assetOut && o.app.trade.assetOut == t.assetIn
        && o.request == SellQuote(t.assetOut.value, t.assetIn.value, t.amountOut)
    ensures var o := Switched(app, env); var t := app.trade;
      IsSwitchEnabled(t, env.market) && !IsSwapEmpty(t) && !IsActive(t.assetOut.value, app.active)
      && IsActive(t.assetIn.value, app.active) ==>
        o.app.trade.amountOut == t.amountIn && o.app.trade.amountIn.None?
        && o.app.trade.assetIn == t.assetOut && o.app.trade.assetOut == t.assetIn
        && o.request == BuyQuote(t.assetOut.value, t.assetIn.value, t.amountIn)
    ensures var o := Switched(app, env); var t := app.trade;
      IsSwitchEnabled(t, env.market) && IsSwapEmpty(t) ==>
        o.app.trade.assetIn == t.assetOut && o.app.trade.assetOut == t.assetIn
        && o.request == SpotPriceQuote(t.assetOut.value, t.assetIn.value)
  {
  }

  /** A quote request always asks for the pair the new state holds, with the
      amount the new state holds on the quoted side. */
  predicate RequestMatches(o: Outcome)
  {
    match o.request
    case SellQuote(a, b, x) =>
      o.app.trade.assetIn == Some(a) && o.app.trade.assetOut == Some(b) && o.app.trade.amountIn == x
    case BuyQuote(a, b, x) =>
      o.app.trade.assetIn == Some(a) && o.app.trade.assetOut == Some(b) && o.app.trade.amountOut == x
    case SpotPriceQuote(a, b) =>
      o.app.trade.assetIn == Some(a) && o.app.trade.assetOut == Some(b)
    case _ => true
  }

  /** A step that starts a quote leaves the other side empty and the trade in
      progress while it waits. */
  predicate AwaitsQuote(o: Outcome)
  {
    (o.request.SellQuote? ==> o.app.trade.amountOut.None? && o.app.trade.inProgress)
    && (o.request.BuyQuote? ==> o.app.trade.amountIn.None? && o.app.trade.inProgress)
  }

  lemma SwitchRequestMatches(app: App, env: Env)
    ensures RequestMatches(Switched(app, env)) && AwaitsQuote(Switched(app, env))
  {
  }

  /** Every request of the amount, switch and asset steps is consistent with
      the state they leave, and every quote they start waits with the other
      side cleared. */
  lemma {:induction false} StepRequestsMatch(app: App, env: Env, amount: string, previous: Option<string>, asset: Asset)
    ensures RequestMatches(AmountInUpdated(app, env, amount)) && AwaitsQuote(AmountInUpdated(app, env, amount))
    ensures RequestMatches(AmountOutUpdated(app, env, amount)) && AwaitsQuote(AmountOutUpdated(app, env, amount))
    ensures RequestMatches(AssetInChanged(app, env, previous, asset)) && AwaitsQuote(AssetInChanged(app, env, previous, asset))
    ensures RequestMatches(AssetOutChanged(app, env, previous, asset)) && AwaitsQuote(AssetOutChanged(app, env, previous, asset))
  {
    SwitchRequestMatches(app, env);
  }

  /** recalculateTrade quotes the state's own pair and amount, and only with
      a selected, non-empty, tradeable pair. */
  lemma RecalculatedRequestMatches(app: App, env: Env)
    ensures RequestMatches(Outcome(app, RecalculatedRequest(app, env)))
    ensures RecalculatedRequest(app, env) != NoRequest ==>
      IsSwapSelected(app.trade) && !IsSwapEmpty(app.trade) && !IsPoolError(app.trade, env.market)
    ensures RecalculatedRequest(app, env).SellQuote? <==>
      IsSwapSelected(app.trade) && !IsSwapEmpty(app.trade) && !IsPoolError(app.trade, env.market)
      && IsActive(app.trade.assetIn.value, app.active)
  {
  }

  /** Picking, on one side, the asset already on the other side is exactly a switch. */
  lemma SameAssetSwitches(app: App, env: Env, previous: Option<string>, asset: Asset)
    ensures app.trade.assetOut.Some? && asset.id == app.trade.assetOut.value.id ==>
      AssetInChanged(app, env, previous, asset) == Switched(app, env)
    ensures app.trade.assetIn.Some? && asset.id == app.trade.assetIn.value.id ==>
      AssetOutChanged(app, env, previous, asset) == Switched(app, env)
  {
  }

  /** changeAssetIn without a switch: the input asset is the new one and the
      output asset stays. Without an output asset only the input asset is
      set and its balance dropped, and nothing is asked. With a
      pair but no amounts the output balance (not the input one) is dropped
      and the spot price of the new pair requested. With amounts the input
      balance and the plan are dropped; replacing the active asset keeps
      the input amount and makes the new asset active, replacing the other
      one keeps the output amount. */
  lemma AssetInChangedCases(app: App, env: Env, previous: Option<string>, asset: Asset)
    requires app.trade.assetOut.None? || asset.id != app.trade.assetOut.value.id
    ensures var o := AssetInChanged(app, env, previous, asset);
      o.app.trade.assetIn == Some(asset) && o.app.trade.assetOut == app.trade.assetOut
    ensures var o := AssetInChanged(app, env, previous, asset);
      app.trade.assetOut.None? ==>
        o == Outcome(app.(trade := app.trade.(assetIn := Some(asset), balanceIn := None)), NoRequest)
    ensures var o := AssetInChanged(app, env, previous, asset);
      app.trade.assetOut.Some? && IsSwapEmpty(app.trade) ==>
        o.app == app.(trade := app.trade.(assetIn := Some(asset), balanceOut := None))
        && o.request == SpotPriceQuote(asset, app.trade.assetOut.value)
    ensures var o := AssetInChanged(app, env, previous, asset);
      app.trade.assetOut.Some? && !IsSwapEmpty(app.trade) ==>
        o.app.trade.balanceIn.None? && o.app.tradeTwap.twap.None?
        && o.app.trade.inProgress && o.app.tradeTwap.inProgress
        && (previous == app.active ==>
              o.app.trade.amountIn == app.trade.amountIn && o.app.trade.amountOut.None?
              && o.app.active == Some(asset.symbol)
              && o.request == SellQuote(asset, app.trade.assetOut.value, app.trade.amountIn))
        && (previous != app.active ==>
              o.app.trade.amountOut == app.trade.amountOut && o.app.trade.amountIn.None?
              && o.app.active == app.active
              && o.request == BuyQuote(asset, app.trade.assetOut.value, app.trade.amountOut))
  {
  }

  /** The mirror image for the output side. */
  lemma AssetOutChangedCases(app: App, env: Env, previous: Option<string>, asset: Asset)
    requires app.trade.assetIn.None? || asset.id != app.trade.assetIn.value.id
    ensures var o := AssetOutChanged(app, env, previous, asset);
      o.app.trade.assetOut == Some(asset) && o.app.trade.assetIn == app.trade.assetIn
    ensures var o := AssetOutChanged(app, env, previous, asset);
      app.trade.assetIn.None? ==>
        o == Outcome(app.(trade := app.trade.(assetOut := Some(asset), balanceOut := None)), NoRequest)
    ensures var o := AssetOutChanged(app, env, previous, asset);
      app.trade.assetIn.Some? && IsSwapEmpty(app.trade) ==>
        o.app == app.(trade := app.trade.(inProgress := true, assetOut := Some(asset), balanceOut := None))
        && o.request == SpotPriceQuote(app.trade.assetIn.value, asset)
    ensures var o := AssetOutChanged(app, env, previous, asset);
      app.trade.assetIn.Some? && !IsSwapEmpty(app.trade) ==>
        o.app.trade.balanceOut.None? && o.app.tradeTwap.twap.None?
        && o.app.trade.inProgress && o.app.tradeTwap.inProgress
        && (previous == app.active ==>
              o.app.trade.amountOut == app.trade.amountOut && o.app.trade.amountIn.None?
              && o.app.active == Some(asset.symbol)
              && o.request == BuyQuote(app.trade.assetIn.value, asset, app.trade.amountOut))
        && (previous != app.active ==>
              o.app.trade.amountIn == app.trade.amountIn && o.app.trade.amountOut.None?
              && o.app.active == app.active
              && o.request == SellQuote(app.trade.assetIn.value, asset, app.trade.amountIn))
  {
  }

  /** The balance check is skipped without an input asset id, a non-empty
      input amount or an account. */
  lemma BalanceCheckSkipped(t: TradeState, env: Env)
    requires !HasId(t.assetIn) || t.amountIn.None? || t.amountIn.value == "" || !env.account
    ensures BalanceValidated(t, env) == t
  {
  }

  /** Otherwise (when the balance is known) the balance error is present
      exactly when the amount in smallest units is above the balance, a
      positive infinity counting as above. */
  lemma BalanceErrorExactly(t: TradeState, env: Env)
    requires HasId(t.assetIn) && t.amountIn.Some? && t.amountIn.value != "" && env.account
    requires t.assetIn.value.id in env.balances
    ensures var b := env.balances[t.assetIn.value.id];
      var x := ParseDecimal(t.amountIn.value);
      (BalanceKey in BalanceValidated(t, env).error <==>
         (x.Number? && Scale(x.value, b.decimals) > b.amount) || x == Infinite(false))
  {
    var b := env.balances[t.assetIn.value.id];
    ExceedsCases(ParseDecimal(t.amountIn.value), b.decimals, b.amount);
  }

  /** The three readings of an amount against a balance. */
  lemma ExceedsCases(x: Num, d: nat, b: real)
    ensures ScaledExceeds(x, d, b) <==> (x.Number? && Scale(x.value, d) > b) || x == Infinite(false)
  {
  }

  /** An input amount of "Infinity" reads as positive infinity, so it always
      exceeds a known balance. */
  lemma InfinityAmountHitsBalance(t: TradeState, env: Env)
    requires HasId(t.assetIn) && t.amountIn == Some("Infinity") && env.account
    requires t.assetIn.value.id in env.balances
    ensures BalanceValidated(t, env).error[BalanceKey] == BalanceMsg
  {
    InfinityReads();
  }

  /** Checking the balance twice gives the same error map as checking once. */
  lemma {:induction false} BalanceValidatedIdempotent(t: TradeState, env: Env)
    ensures BalanceValidated(BalanceValidated(t, env), env) == BalanceValidated(t, env)
  {
    BalanceValidatedFrame(t, env);
  }

  /** translateTradeError knows exactly three codes; any other one still
      produces a (message-less) trade error entry. */
  lemma TranslateKnowsThreeCodes(code: string)
    ensures TranslateTradeError(code) != NoMessage <==>
      code in {"InsufficientTradingAmount", "MaxOutRatioExceeded", "MaxInRatioExceeded"}
  {
  }

  /** validateTrade on a Sell: no route, no change; otherwise the trade
      error is the translated first code of the first failing hop, present
      even for an unknown code, and absent when no hop fails. */
  lemma TradeValidatedSell(t: TradeState)
    ensures |t.swaps| == 0 ==> TradeValidated(t, Sell) == t
    ensures var r := TradeValidated(t, Sell);
      r.swaps == t.swaps
      && (forall k | 0 <= k < |t.swaps| && |t.swaps[k].errors| > 0
                     && (forall j | 0 <= j < k :: |t.swaps[j].errors| == 0) ::
            TradeKey in r.error && r.error[TradeKey] == TranslateTradeError(t.swaps[k].errors[0]))
    ensures |t.swaps| > 0 && (forall k | 0 <= k < |t.swaps| :: |t.swaps[k].errors| == 0) ==>
      TradeKey !in TradeValidated(t, Sell).error
  {
    var r := TradeValidated(t, Sell);
    forall k | 0 <= k < |t.swaps| && |t.swaps[k].errors| > 0 && (forall j | 0 <= j < k :: |t.swaps[j].errors| == 0)
      ensures TradeKey in r.error && r.error[TradeKey] == TranslateTradeError(t.swaps[k].errors[0])
    {
      assert FirstWithErrors(t.swaps) == Some(k);
    }
  }

  /** validateTrade on a Buy reverses the stored route in place and reports
      the last failing hop of the original order. */
  lemma {:induction false} TradeValidatedBuyUsesLastHop(t: TradeState, k: nat)
    requires k < |t.swaps| && |t.swaps[k].errors| > 0
    requires forall j | k < j < |t.swaps| :: |t.swaps[j].errors| == 0
    ensures var r := TradeValidated(t, Buy);
      r.swaps == Reverse(t.swaps)
      && r.error == t.error[TradeKey := TranslateTradeError(t.swaps[k].errors[0])]
  {
    var s := t.swaps;
    var rs := Reverse(s);
    var i := |s| - 1 - k;
    ReverseAt(s, i);
    forall j | 0 <= j < i
      ensures |rs[j].errors| == 0
    {
      ReverseAt(s, j);
    }
    assert FirstWithErrors(rs) == Some(i);
  }

  /** validateTrade on a Buy, every case: no route, no change; otherwise the
      stored route is reversed in place, the trade error is the translated
      first code of the last failing hop in the original order, and it is
      removed when no hop fails. */
  lemma {:induction false} TradeValidatedBuy(t: TradeState)
    ensures |t.swaps| == 0 ==> TradeValidated(t, Buy) == t
    ensures |t.swaps| > 0 ==> TradeValidated(t, Buy).swaps == Reverse(t.swaps)
    ensures forall k | 0 <= k < |t.swaps| && |t.swaps[k].errors| > 0
                       && (forall j | k < j < |t.swaps| :: |t.swaps[j].errors| == 0) ::
      TradeValidated(t, Buy).error == t.error[TradeKey := TranslateTradeError(t.swaps[k].errors[0])]
    ensures |t.swaps| > 0 && (forall k | 0 <= k < |t.swaps| :: |t.swaps[k].errors| == 0) ==>
      TradeValidated(t, Buy).error == t.error - {TradeKey}
  {
    forall k | 0 <= k < |t.swaps| && |t.swaps[k].errors| > 0
               && (forall j | k < j < |t.swaps| :: |t.swaps[j].errors| == 0)
      ensures TradeValidated(t, Buy).error == t.error[TradeKey := TranslateTradeError(t.swaps[k].errors[0])]
    {
      TradeValidatedBuyUsesLastHop(t, k);
    }
    if |t.swaps| > 0 && (forall k | 0 <= k < |t.swaps| :: |t.swaps[k].errors| == 0) {
      var rs := Reverse(t.swaps);
      forall j | 0 <= j < |rs|
        ensures |rs[j].errors| == 0
      {
        ReverseAt(t.swaps, j);
      }
      assert FirstWithErrors(rs) == None;
    }
  }

  /** isPoolError: false unless both ids are set; true for equal ids. */
  lemma PoolErrorCases(t: TradeState, m: Market)
    ensures !HasId(t.assetIn) || !HasId(t.assetOut) ==> !IsPoolError(t, m)
    ensures HasId(t.assetIn) && HasId(t.assetOut) && t.assetIn.value.id == t.assetOut.value.id ==> IsPoolError(t, m)
  {
  }

  /** validatePool: an untradeable pair carries the pool error and a reset
      trade; a tradeable one loses the pool error and nothing else changes. */
  lemma PoolValidatedCases(app: App, env: Env)
    ensures var r := PoolValidated(app, env);
      IsPoolError(app.trade, env.market) ==>
        PoolKey in r.trade.error && r.trade.error[PoolKey] == InvalidPairMsg
        && r.trade.amountIn.None? && r.trade.amountOut.None? && r.trade.swaps == []
        && r.tradeTwap.twap.None? && SameSelection(r, app)
    ensures var r := PoolValidated(app, env);
      !IsPoolError(app.trade, env.market) ==>
        r == app.(trade := app.trade.(error := app.trade.error - {PoolKey}))
  {
  }

  /** Selecting, on the input side, the asset already on the output side can
      never leave a pool error behind: the click becomes a switch of two
      different, both-way tradeable assets or changes nothing. */
  lemma {:induction false} ClickedSameAssetNoPoolError(app: App, env: Env, previous: Option<string>, asset: Asset)
    requires app.trade.assetOut.Some? && asset.id == app.trade.assetOut.value.id
    requires !IsPoolError(app.trade, env.market)
    ensures PoolKey !in AssetClicked(app, env, "assetIn", previous, asset).app.trade.error
  {
    var o := AssetInChanged(app, env, previous, asset);
    SameAssetSwitches(app, env, previous, asset);
    var t := app.trade;
    if IsSwapSelected(t) && IsSwitchEnabled(t, env.market) && HasId(t.assetIn) && HasId(t.assetOut) {
      assert !IsPoolError(o.app.trade, env.market);
    }
  }

  /** A TWAP plan is requested only with the feature on and TWAP active. */
  lemma TwapRequestedOnlyWhenActive(app: App, env: Env, on: bool)
    ensures TwapToggled(app, env, on).request.TwapQuote? <==> env.twapAllowed && on
    ensures TwapToggled(app, env, on).app.tradeTwap.active == on
  {
  }
}
