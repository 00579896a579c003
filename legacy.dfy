/** The older trade screen (src/screen/trade.ts). Its state machine is close
    to the trade component's, with three differences: an empty amount clears
    the amounts and the spot price instead of resetting the trade, there is
    no pool validation or TWAP, and a quote overrides every field it carries,
    the typed amount included. */
module LegacyTradeScreen {
  import opened Common
  import opened Amount
  import opened TradeTypes

  /** The screen's `TradeState`. */
  datatype LegacyTrade = LegacyTrade(
    tradeType: TradeType,
    assetIn: Option<Asset>,
    assetOut: Option<Asset>,
    amountIn: Option<string>,
    amountOut: Option<string>,
    balanceIn: Option<real>,
    balanceOut: Option<real>,
    inProgress: bool,
    spotPrice: Option<string>,
    afterSlippage: Option<string>,
    details: string,
    swaps: seq<Swap>)

  /** The trade, the active asset symbol (`assets.active`) and the prepared
      transaction (`transactionCursor`). */
  datatype Screen = Screen(trade: LegacyTrade, active: Option<string>, transaction: Option<string>)

  /** A best-sell or best-buy request. */
  datatype BestRequest =
    | NoQuote
    | BestSell(sellIn: Asset, sellOut: Asset, amountIn: Option<string>)
    | BestBuy(buyIn: Asset, buyOut: Asset, amountOut: Option<string>)

  datatype LegacyOutcome = LegacyOutcome(screen: Screen, request: BestRequest)

  /** The router's answer: `bestSell.toHuman()` (here its type, amounts,
      spot price, route and the remaining display fields as `details`), the
      slippage bound and the transaction. */
  datatype LegacyQuote = LegacyQuote(
    tradeType: TradeType,
    amountIn: string,
    amountOut: string,
    spotPrice: string,
    details: string,
    swaps: seq<Swap>,
    slippage: string,
    transaction: string)

  predicate IsSwapSelected(t: LegacyTrade)
  {
    t.assetIn.Some? && t.assetOut.Some?
  }

  predicate IsSwapEmpty(t: LegacyTrade)
  {
    t.amountIn.None? && t.amountOut.None?
  }

  predicate IsEmptyAmount(amount: string)
  {
    amount == "" || amount == "0"
  }

  predicate IsActive(a: Asset, active: Option<string>)
  {
    active == Some(a.symbol)
  }

  // ----- spec functions -----

  /** `clearAmounts`. */
  function Cleared(t: LegacyTrade): LegacyTrade
  {
    t.(amountIn := None, amountOut := None, spotPrice := None, swaps := [])
  }

  /** `updateAmountIn`: an empty amount clears; with a pair the output is
      cleared and a sell of the amount quoted (the amount itself only arrives
      with the quote); otherwise the amount is stored. */
  function LegacyAmountInUpdated(s: Screen, amount: string): LegacyOutcome
  {
    var t := s.trade;
    if IsEmptyAmount(amount) then LegacyOutcome(s.(trade := Cleared(t)), NoQuote)
    else if IsSwapSelected(t) then
      LegacyOutcome(s.(trade := t.(inProgress := true, amountOut := None)),
                    BestSell(t.assetIn.value, t.assetOut.value, Some(amount)))
    else LegacyOutcome(s.(trade := t.(amountIn := Some(amount))), NoQuote)
  }

  /** `updateAmountOut`: the mirror image, quoting a buy. */
  function LegacyAmountOutUpdated(s: Screen, amount: string): LegacyOutcome
  {
    var t := s.trade;
    if IsEmptyAmount(amount) then LegacyOutcome(s.(trade := Cleared(t)), NoQuote)
    else if IsSwapSelected(t) then
      LegacyOutcome(s.(trade := t.(inProgress := true, amountIn := None)),
                    BestBuy(t.assetIn.value, t.assetOut.value, Some(amount)))
    else LegacyOutcome(s.(trade := t.(amountOut := Some(amount))), NoQuote)
  }

  /** The pair and balances exchanged, with the given amounts. */
  function Transposed(t: LegacyTrade, amountIn: Option<string>, amountOut: Option<string>): LegacyTrade
  {
    t.(assetIn := t.assetOut, assetOut := t.assetIn, balanceIn := t.balanceOut, balanceOut := t.balanceIn,
       amountIn := amountIn, amountOut := amountOut)
  }

  /** `switchAndReCalculateSell`: the old output amount becomes the amount sold. */
  function SwitchedSell(s: Screen): LegacyOutcome
  {
    var t := Transposed(s.trade, s.trade.amountOut, None).(inProgress := true);
    LegacyOutcome(s.(trade := t), if IsSwapSelected(t) then BestSell(t.assetIn.value, t.assetOut.value, t.amountIn) else NoQuote)
  }

  /** `switchAndReCalculateBuy`: the old input amount becomes the amount bought. */
  function SwitchedBuy(s: Screen): LegacyOutcome
  {
    var t := Transposed(s.trade, None, s.trade.amountIn).(inProgress := true);
    LegacyOutcome(s.(trade := t), if IsSwapSelected(t) then BestBuy(t.assetIn.value, t.assetOut.value, t.amountOut) else NoQuote)
  }

  /** `switchAssets`: without a pair or without amounts, a plain transposition;
      otherwise re-quote from the active side. */
  function LegacySwitched(s: Screen): LegacyOutcome
  {
    var t := s.trade;
    if !IsSwapSelected(t) || IsSwapEmpty(t) then
      LegacyOutcome(s.(trade := Transposed(t, t.amountOut, t.amountIn)), NoQuote)
    else if IsActive(t.assetOut.value, s.active) then SwitchedSell(s)
    else if IsActive(t.assetIn.value, s.active) then SwitchedBuy(s)
    else LegacyOutcome(s, NoQuote)
  }

  /** `changeAssetIn`: without an output asset or without amounts only the
      input asset changes; otherwise the side of the replaced asset decides
      whether a sell (active) or a buy is quoted. */
  function LegacyAssetInChanged(s: Screen, previous: Option<string>, asset: Asset): LegacyOutcome
  {
    var t := s.trade;
    if t.assetOut.None? || IsSwapEmpty(t) then
      LegacyOutcome(s.(trade := t.(assetIn := Some(asset), balanceIn := None)), NoQuote)
    else if previous == s.active then
      LegacyOutcome(s.(trade := t.(inProgress := true, assetIn := Some(asset), balanceIn := None, amountOut := None)),
                    BestSell(asset, t.assetOut.value, t.amountIn))
    else
      LegacyOutcome(s.(trade := t.(inProgress := true, assetIn := Some(asset), balanceIn := None, amountIn := None)),
                    BestBuy(asset, t.assetOut.value, t.amountOut))
  }

  /** `changeAssetOut`: the mirror image. */
  function LegacyAssetOutChanged(s: Screen, previous: Option<string>, asset: Asset): LegacyOutcome
  {
    var t := s.trade;
    if t.assetIn.None? || IsSwapEmpty(t) then
      LegacyOutcome(s.(trade := t.(assetOut := Some(asset), balanceOut := None)), NoQuote)
    else if previous == s.active then
      LegacyOutcome(s.(trade := t.(inProgress := true, assetOut := Some(asset), balanceOut := None, amountIn := None)),
                    BestBuy(t.assetIn.value, asset, t.amountOut))
    else
      LegacyOutcome(s.(trade := t.(inProgress := true, assetOut := Some(asset), balanceOut := None, amountOut := None)),
                    BestSell(t.assetIn.value, asset, t.amountIn))
  }

  /** `calculateBestSell`/`calculateBestBuy` once the router answered: the
      quote overrides every field it carries. A rejected call (`None`)
      changes nothing. */
  function BestCommitted(s: Screen, assetIn: Asset, assetOut: Asset, reply: Option<LegacyQuote>): Screen
  {
    match reply
    case None => s
    case Some(q) =>
      s.(trade := s.trade.(inProgress := false, assetIn := Some(assetIn), assetOut := Some(assetOut),
                           afterSlippage := Some(q.slippage), tradeType := q.tradeType,
                           amountIn := Some(q.amountIn), amountOut := Some(q.amountOut),
                           spotPrice := Some(q.spotPrice), details := q.details, swaps := q.swaps),
         transaction := Some(q.transaction))
  }

  /** `updateBalances`. */
  function LegacyBalancesUpdated(t: LegacyTrade, balances: map<string, Rate>): LegacyTrade
  {
    t.(balanceIn := if t.assetIn.Some? && t.assetIn.value.id in balances
                    then Some(FormatAmount(balances[t.assetIn.value.id].amount, balances[t.assetIn.value.id].decimals)) else None,
       balanceOut := if t.assetOut.Some? && t.assetOut.value.id in balances
                     then Some(FormatAmount(balances[t.assetOut.value.id].amount, balances[t.assetOut.value.id].decimals)) else None)
  }

  /** The selector's `asset-clicked` event: change the side the selector was
      opened for, then refresh both balances. */
  function LegacyAssetClicked(s: Screen, id: string, previous: Option<string>, asset: Asset,
                              balances: map<string, Rate>): LegacyOutcome
  {
    var o := if id == "assetIn" then LegacyAssetInChanged(s, previous, asset)
             else if id == "assetOut" then LegacyAssetOutChanged(s, previous, asset)
             else LegacyOutcome(s, NoQuote);
    LegacyOutcome(o.screen.(trade := LegacyBalancesUpdated(o.screen.trade, balances)), o.request)
  }

  // ----- the screen -----

  class TradeScreen {
    var trade: LegacyTrade
    var active: Option<string>
    var transaction: Option<string>

    function State(): Screen
      reads this
    {
      Screen(trade, active, transaction)
    }

    constructor(initial: Screen)
      ensures State() == initial
    {
      trade := initial.trade;
      active := initial.active;
      transaction := initial.transaction;
    }

    method ClearAmounts()
      modifies this
      ensures State() == old(State()).(trade := Cleared(old(trade)))
    {
      trade := Cleared(trade);
    }

    method UpdateAmountIn(amount: string) returns (req: BestRequest)
      modifies this
      ensures LegacyOutcome(State(), req) == LegacyAmountInUpdated(old(State()), amount)
    {
      req := NoQuote;
      if IsEmptyAmount(amount) {
        ClearAmounts();
        return;
      }
      if IsSwapSelected(trade) {
        trade := trade.(inProgress := true, amountOut := None);
        req := BestSell(trade.assetIn.value, trade.assetOut.value, Some(amount));
      } else {
        trade := trade.(amountIn := Some(amount));
      }
    }

    method UpdateAmountOut(amount: string) returns (req: BestRequest)
      modifies this
      ensures LegacyOutcome(State(), req) == LegacyAmountOutUpdated(old(State()), amount)
    {
      req := NoQuote;
      if IsEmptyAmount(amount) {
        ClearAmounts();
        return;
      }
      if IsSwapSelected(trade) {
        trade := trade.(inProgress := true, amountIn := None);
        req := BestBuy(trade.assetIn.value, trade.assetOut.value, Some(amount));
      } else {
        trade := trade.(amountOut := Some(amount));
      }
    }

    method SwitchAndReCalculateSell() returns (req: BestRequest)
      modifies this
      ensures LegacyOutcome(State(), req) == SwitchedSell(old(State()))
    {
      trade := trade.(inProgress := true, assetIn := trade.assetOut, assetOut := trade.assetIn,
                      balanceIn := trade.balanceOut, balanceOut := trade.balanceIn,
                      amountIn := trade.amountOut, amountOut := None);
      req := NoQuote;
      if IsSwapSelected(trade) {
        req := BestSell(trade.assetIn.value, trade.assetOut.value, trade.amountIn);
      }
    }

    method SwitchAndReCalculateBuy() returns (req: BestRequest)
      modifies this
      ensures LegacyOutcome(State(), req) == SwitchedBuy(old(State()))
    {
      trade := trade.(inProgress := true, assetIn := trade.assetOut, assetOut := trade.assetIn,
                      balanceIn := trade.balanceOut, balanceOut := trade.balanceIn,
                      amountIn := None, amountOut := trade.amountIn);
      req := NoQuote;
      if IsSwapSelected(trade) {
        req := BestBuy(trade.assetIn.value, trade.assetOut.value, trade.amountOut);
      }
    }

    method SwitchAssets() returns (req: BestRequest)
      modifies this
      ensures LegacyOutcome(State(), req) == LegacySwitched(old(State()))
    {
      req := NoQuote;
      if !IsSwapSelected(trade) || IsSwapEmpty(trade) {
        trade := trade.(assetIn := trade.assetOut, assetOut := trade.assetIn,
                        balanceIn := trade.balanceOut, balanceOut := trade.balanceIn,
                        amountIn := trade.amountOut, amountOut := trade.amountIn);
      } else if IsActive(trade.assetOut.value, active) {
        req := SwitchAndReCalculateSell();
      } else if IsActive(trade.assetIn.value, active) {
        req := SwitchAndReCalculateBuy();
      }
    }

    method ChangeAssetIn(previous: Option<string>, asset: Asset) returns (req: BestRequest)
      modifies this
      ensures LegacyOutcome(State(), req) == LegacyAssetInChanged(old(State()), previous, asset)
    {
      var assetOut := trade.assetOut;
      if assetOut.None? || IsSwapEmpty(trade) {
        trade := trade.(assetIn := Some(asset), balanceIn := None);
        req := NoQuote;
        return;
      }
      if previous == active {
        trade := trade.(inProgress := true, assetIn := Some(asset), balanceIn := None, amountOut := None);
        req := BestSell(asset, assetOut.value, trade.amountIn);
      } else {
        trade := trade.(inProgress := true, assetIn := Some(asset), balanceIn := None, amountIn := None);
        req := BestBuy(asset, assetOut.value, trade.amountOut);
      }
    }

    method ChangeAssetOut(previous: Option<string>, asset: Asset) returns (req: BestRequest)
      modifies this
      ensures LegacyOutcome(State(), req) == LegacyAssetOutChanged(old(State()), previous, asset)
    {
      var assetIn := trade.assetIn;
      if assetIn.None? || IsSwapEmpty(trade) {
        trade := trade.(assetOut := Some(asset), balanceOut := None);
        req := NoQuote;
        return;
      }
      if previous == active {
        trade := trade.(inProgress := true, assetOut := Some(asset), balanceOut := None, amountIn := None);
        req := BestBuy(assetIn.value, asset, trade.amountOut);
      } else {
        trade := trade.(inProgress := true, assetOut := Some(asset), balanceOut := None, amountOut := None);
        req := BestSell(assetIn.value, asset, trade.amountIn);
      }
    }

    method CommitBest(assetIn: Asset, assetOut: Asset, reply: Option<LegacyQuote>)
      modifies this
      ensures State() == BestCommitted(old(State()), assetIn, assetOut, reply)
    {
      if reply.Some? {
        var q := reply.value;
        trade := trade.(inProgress := false, assetIn := Some(assetIn), assetOut := Some(assetOut),
                        afterSlippage := Some(q.slippage), tradeType := q.tradeType,
                        amountIn := Some(q.amountIn), amountOut := Some(q.amountOut),
                        spotPrice := Some(q.spotPrice), details := q.details, swaps := q.swaps);
        transaction := Some(q.transaction);
      }
    }

    method UpdateBalances(balances: map<string, Rate>)
      modifies this
      ensures State() == old(State()).(trade := LegacyBalancesUpdated(old(trade), balances))
    {
      trade := LegacyBalancesUpdated(trade, balances);
    }

    /** The `asset-clicked` event of the token selector. */
    method OnAssetClicked(id: string, previous: Option<string>, asset: Asset, balances: map<string, Rate>)
      returns (req: BestRequest)
      modifies this
      ensures LegacyOutcome(State(), req) == LegacyAssetClicked(old(State()), id, previous, asset, balances)
    {
      req := NoQuote;
      if id == "assetIn" {
        req := ChangeAssetIn(previous, asset);
      } else if id == "assetOut" {
        req := ChangeAssetOut(previous, asset);
      }
      UpdateBalances(balances);
    }

    /** The `asset-input-changed` event. */
    method OnAssetInputChanged(id: string, symbol: string, value: string) returns (req: BestRequest)
      modifies this
      ensures var s := old(State()).(active := Some(symbol));
        LegacyOutcome(State(), req)
          == (if id == "assetIn" then LegacyAmountInUpdated(s, value)
              else if id == "assetOut" then LegacyAmountOutUpdated(s, value)
              else LegacyOutcome(s, NoQuote))
    {
      active := Some(symbol);
      req := NoQuote;
      if id == "assetIn" {
        req := UpdateAmountIn(value);
      } else if id == "assetOut" {
        req := UpdateAmountOut(value);
      }
    }
  }

  // ----- properties -----

  /** clearAmounts nulls the two amounts and the spot price, empties the
      route, and changes nothing else; clearing is idempotent. */
  lemma ClearedExactly(t: LegacyTrade)
    ensures var c := Cleared(t);
      c.amountIn.None? && c.amountOut.None? && c.spotPrice.None? && c.swaps == []
      && c.assetIn == t.assetIn && c.assetOut == t.assetOut && c.balanceIn == t.balanceIn
      && c.balanceOut == t.balanceOut && c.inProgress == t.inProgress && c.afterSlippage == t.afterSlippage
      && c.tradeType == t.tradeType && c.details == t.details
    ensures Cleared(Cleared(t)) == Cleared(t)
  {
  }

  /** An empty amount on either side clears the amounts and quotes nothing. */
  lemma LegacyEmptyAmountClears(s: Screen, amount: string)
    requires IsEmptyAmount(amount)
    ensures LegacyAmountInUpdated(s, amount) == LegacyOutcome(s.(trade := Cleared(s.trade)), NoQuote)
    ensures LegacyAmountOutUpdated(s, amount) == LegacyOutcome(s.(trade := Cleared(s.trade)), NoQuote)
  {
  }

  /** With a pair, typing an input amount leaves the stored input amount as
      it was (the quote brings it), clears the output and quotes a sell of
      the typed amount; the output side mirrors this. */
  lemma LegacyTypedAmount(s: Screen, amount: string)
    requires !IsEmptyAmount(amount) && IsSwapSelected(s.trade)
    ensures var o := LegacyAmountInUpdated(s, amount);
      o.screen.trade.amountIn == s.trade.amountIn && o.screen.trade.amountOut.None? && o.screen.trade.inProgress
      && o.request == BestSell(s.trade.assetIn.value, s.trade.assetOut.value, Some(amount))
    ensures var o := LegacyAmountOutUpdated(s, amount);
      o.screen.trade.amountOut == s.trade.amountOut && o.screen.trade.amountIn.None? && o.screen.trade.inProgress
      && o.request == BestBuy(s.trade.assetIn.value, s.trade.assetOut.value, Some(amount))
  {
  }

  /** Without a pair or without amounts, switching twice is the identity. */
  lemma {:induction false} LegacySwitchInvolution(s: Screen)
    requires !IsSwapSelected(s.trade) || IsSwapEmpty(s.trade)
    ensures LegacySwitched(s).request == NoQuote
    ensures LegacySwitched(LegacySwitched(s).screen).screen == s
  {
    var t1 := LegacySwitched(s).screen.trade;
    assert !IsSwapSelected(t1) || IsSwapEmpty(t1);
  }

  /** Switching with a sell re-quote moves the old output amount to the
      input and clears the output; a buy re-quote moves the old input amount
      to the output and clears the input. Both exchange the pair. */
  lemma SwitchAndRecalculate(s: Screen)
    requires IsSwapSelected(s.trade)
    ensures var o := SwitchedSell(s);
      o.screen.trade.amountIn == s.trade.amountOut && o.screen.trade.amountOut.None? && o.screen.trade.inProgress
      && o.screen.trade.assetIn == s.trade.assetOut && o.screen.trade.assetOut == s.trade.assetIn
      && o.request == BestSell(s.trade.assetOut.value, s.trade.assetIn.value, s.trade.amountOut)
    ensures var o := SwitchedBuy(s);
      o.screen.trade.amountOut == s.trade.amountIn && o.screen.trade.amountIn.None? && o.screen.trade.inProgress
      && o.screen.trade.assetIn == s.trade.assetOut && o.screen.trade.assetOut == s.trade.assetIn
      && o.request == BestBuy(s.trade.assetOut.value, s.trade.assetIn.value, s.trade.amountIn)
  {
  }

  /** changeAssetIn: without an output asset or amounts, only the input asset
      (and its balance) change; otherwise replacing the active asset quotes a
      sell of the kept input amount, and replacing the other quotes a buy of
      the kept output amount. */
  lemma LegacyAssetInCases(s: Screen, previous: Option<string>, asset: Asset)
    ensures var o := LegacyAssetInChanged(s, previous, asset);
      s.trade.assetOut.None? || IsSwapEmpty(s.trade) ==>
        o.request == NoQuote && o.screen == s.(trade := s.trade.(assetIn := Some(asset), balanceIn := None))
    ensures var o := LegacyAssetInChanged(s, previous, asset);
      s.trade.assetOut.Some? && !IsSwapEmpty(s.trade) && previous == s.active ==>
        o.screen.trade.amountOut.None? && o.request == BestSell(asset, s.trade.assetOut.value, s.trade.amountIn)
        && o.screen.trade.amountIn == s.trade.amountIn
    ensures var o := LegacyAssetInChanged(s, previous, asset);
      s.trade.assetOut.Some? && !IsSwapEmpty(s.trade) && previous != s.active ==>
        o.screen.trade.amountIn.None? && o.request == BestBuy(asset, s.trade.assetOut.value, s.trade.amountOut)
        && o.screen.trade.amountOut == s.trade.amountOut
  {
  }

  /** The mirror image for the output side. */
  lemma LegacyAssetOutCases(s: Screen, previous: Option<string>, asset: Asset)
    ensures var o := LegacyAssetOutChanged(s, previous, asset);
      s.trade.assetIn.None? || IsSwapEmpty(s.trade) ==>
        o.request == NoQuote && o.screen == s.(trade := s.trade.(assetOut := Some(asset), balanceOut := None))
    ensures var o := LegacyAssetOutChanged(s, previous, asset);
      s.trade.assetIn.Some? && !IsSwapEmpty(s.trade) && previous == s.active ==>
        o.screen.trade.amountIn.None? && o.request == BestBuy(s.trade.assetIn.value, asset, s.trade.amountOut)
        && o.screen.trade.amountOut == s.trade.amountOut
    ensures var o := LegacyAssetOutChanged(s, previous, asset);
      s.trade.assetIn.Some? && !IsSwapEmpty(s.trade) && previous != s.active ==>
        o.screen.trade.amountOut.None? && o.request == BestSell(s.trade.assetIn.value, asset, s.trade.amountIn)
        && o.screen.trade.amountIn == s.trade.amountIn
  {
  }

  /** Unlike the trade component, the screen lets the quote override the
      typed amount too: after a commit both amounts are the quote's, and the
      result does not depend on the amounts held before. */
  lemma {:induction false} LegacyQuoteOverridesAmounts(s: Screen, s': Screen, assetIn: Asset, assetOut: Asset, q: LegacyQuote)
    requires s' == s.(trade := s.trade.(amountIn := s'.trade.amountIn, amountOut := s'.trade.amountOut))
    ensures var r := BestCommitted(s, assetIn, assetOut, Some(q));
      r.trade.amountIn == Some(q.amountIn) && r.trade.amountOut == Some(q.amountOut) && !r.trade.inProgress
    ensures BestCommitted(s, assetIn, assetOut, Some(q)) == BestCommitted(s', assetIn, assetOut, Some(q))
  {
  }

  /** After a click the chosen asset sits on the selector's side and both
      balances are read afresh for the pair now selected: the input balance
      is the formatted balance of the chosen asset, or none without one. */
  lemma LegacyClickRefreshesBalances(s: Screen, previous: Option<string>, asset: Asset, balances: map<string, Rate>)
    ensures var t := LegacyAssetClicked(s, "assetIn", previous, asset, balances).screen.trade;
      t.assetIn == Some(asset)
      && t.balanceIn == (if asset.id in balances
                         then Some(FormatAmount(balances[asset.id].amount, balances[asset.id].decimals)) else None)
    ensures var t := LegacyAssetClicked(s, "assetOut", previous, asset, balances).screen.trade;
      t.assetOut == Some(asset)
      && t.balanceOut == (if asset.id in balances
                          then Some(FormatAmount(balances[asset.id].amount, balances[asset.id].decimals)) else None)
    ensures LegacyAssetClicked(s, "other", previous, asset, balances).screen.trade.assetIn == s.trade.assetIn
  {
  }
}
