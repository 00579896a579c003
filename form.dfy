/** The trade form (src/component/trade/form.ts): which errors block the
    confirm button, which event the button fires, how the TWAP comparison
    and the fee indicator are shown, and the `twapEnabled` toggle. */
module TradeFormModel {
  import opened Common
  import opened TradeTypes

  /** The form's properties as far as its decisions read them. USD values,
      fees and the price impact are numbers here (the source converts its
      strings with `Number`/`bnum`). */
  datatype FormProps = FormProps(
    disabled: bool,
    tradeType: TradeType,
    twap: Option<TwapPlan>,
    twapAllowed: bool,
    error: ErrorMap,
    swaps: seq<Swap>,
    amountInUsd: real,
    amountOutUsd: real,
    priceImpactPct: real,
    tradeFee: real,
    tradeFeePct: real,
    tradeFeeRange: Option<FeeRange>,
    hasTransactionFee: bool,
    inProgress: bool,
    twapProgress: bool)

  /** `tradeFeeRange`: `[min, max]`. */
  datatype FeeRange = FeeRange(min: real, max: real)

  // ----- errors and the confirm button -----

  /** `isTwapError`: there is a TWAP plan and it carries an error. */
  predicate IsTwapError(p: FormProps)
  {
    p.twap.Some? && p.twap.value.tradeError.Some?
  }

  /** `hasGeneralError`: an error other than the balance error. */
  predicate HasGeneralError(error: ErrorMap)
  {
    |error - {BalanceKey}| > 0
  }

  /** `hasTradeError`: any error at all. */
  predicate HasTradeError(error: ErrorMap)
  {
    |error| > 0
  }

  /** `hasTwapError`: an error other than the trade error, or, with TWAP
      enabled, an error in the plan. */
  predicate HasTwapError(p: FormProps, twapEnabled: bool)
  {
    |p.error - {TradeKey}| > 0 || (twapEnabled && IsTwapError(p))
  }

  /** `isDisabled`: the confirm button is greyed out. */
  predicate IsDisabled(p: FormProps, twapEnabled: bool)
  {
    if twapEnabled then p.disabled || HasTwapError(p, twapEnabled)
    else p.disabled || HasTradeError(p.error)
  }

  /** The error row is shown. */
  predicate ErrorRowShown(p: FormProps, twapEnabled: bool)
  {
    |p.swaps| > 0 && !twapEnabled && HasGeneralError(p.error)
  }

  /** A map has a key other than `k` exactly when removing `k` leaves it non-empty. */
  lemma OtherKey(error: ErrorMap, k: ErrorKey)
    ensures |error - {k}| > 0 <==> exists k' :: k' in error && k' != k
  {
    if k' :| k' in error && k' != k {
      assert k' in error - {k};
    }
    if |error - {k}| > 0 {
      var k' :| k' in error - {k};
    }
  }

  /** With TWAP enabled the button is disabled exactly when the form is
      disabled, an error other than the trade error exists, or the plan has
      an error; without TWAP, when the form is disabled or any error exists. */
  lemma {:induction false} DisabledExactly(p: FormProps, twapEnabled: bool)
    ensures twapEnabled ==>
      (IsDisabled(p, twapEnabled) <==> p.disabled || (exists k :: k in p.error && k != TradeKey) || IsTwapError(p))
    ensures !twapEnabled ==>
      (IsDisabled(p, twapEnabled) <==> p.disabled || (exists k :: k in p.error))
  {
    OtherKey(p.error, TradeKey);
    if !twapEnabled && (exists k :: k in p.error) {
      var k :| k in p.error;
      assert |p.error| > 0;
    }
  }

  /** The error row ignores only the balance error: it is shown exactly when
      there is a route, TWAP is off, and some non-balance error exists. */
  lemma {:induction false} ErrorRowExactly(p: FormProps, twapEnabled: bool)
    ensures ErrorRowShown(p, twapEnabled) <==>
      |p.swaps| > 0 && !twapEnabled && exists k :: k in p.error && k != BalanceKey
  {
    OtherKey(p.error, BalanceKey);
  }

  // ----- price impact and fees -----

  /** `isSignificantPriceImpact`. */
  predicate IsSignificantPriceImpact(impactPct: real)
  {
    impactPct <= -1.0
  }

  /** `infoPriceImpactTemplate`: the price impact shown, the plan's
      single-order impact under TWAP. The template reads the plan before it
      looks at `inProgress`, so with TWAP enabled and no plan (an asset pick
      drops the plan without turning TWAP off) it throws; that is `None`. */
  function ShownPriceImpact(p: FormProps, twapEnabled: bool): (r: Option<real>)
    ensures r.None? <==> twapEnabled && p.twap.None?
  {
    if !twapEnabled then Some(p.priceImpactPct)
    else if p.twap.Some? then Some(p.twap.value.orderPriceImpactPct)
    else None
  }

  /** What `infoTradeFeeDetail` renders: a skeleton while a quote is in
      progress, otherwise the fee, its percentage and, with a fee range,
      the indicator. */
  datatype FeeRow =
    | FeeSkeleton
    | FeeShown(fee: real, feePct: real, indicator: Option<Indicator>)

  /** `infoTradeFeeDetail`: under TWAP the fee of one order times the number
      of orders, with the order's percentage; the indicator always places the
      form's own `tradeFeePct`. `None` is the throw when TWAP is enabled
      without a plan and no quote is in progress. */
  function ShownTradeFee(p: FormProps, twapEnabled: bool): (r: Option<FeeRow>)
    ensures r.None? <==> !p.inProgress && twapEnabled && p.twap.None?
    ensures r == Some(FeeSkeleton) <==> p.inProgress
  {
    if p.inProgress then Some(FeeSkeleton)
    else if twapEnabled && p.twap.None? then None
    else
      var indicator := if p.tradeFeeRange.Some? then Some(FeeIndicator(p.tradeFeeRange.value, p.tradeFeePct)) else None;
      if twapEnabled then
        Some(FeeShown(p.twap.value.orderFee * p.twap.value.tradeReps, p.twap.value.orderFeePct, indicator))
      else Some(FeeShown(p.tradeFee, p.tradeFeePct, indicator))
  }

  /** Each row reads one source: under TWAP the price impact and the fee
      amounts depend only on the plan (and the fee row on the progress
      flag), so no change to the single swap's quote shows; without TWAP
      they depend only on the quote's own fields, so no change to the plan
      shows. */
  lemma ShownRowsReadOneSource(p: FormProps, q: FormProps)
    ensures p.twap == q.twap ==> ShownPriceImpact(p, true) == ShownPriceImpact(q, true)
    ensures p.priceImpactPct == q.priceImpactPct ==> ShownPriceImpact(p, false) == ShownPriceImpact(q, false)
    ensures p.twap == q.twap && p.inProgress == q.inProgress ==>
      var a := ShownTradeFee(p, true); var b := ShownTradeFee(q, true);
      a.Some? == b.Some?
      && (a.Some? && a.value.FeeShown? ==>
            b.value.FeeShown? && a.value.fee == b.value.fee && a.value.feePct == b.value.feePct)
    ensures p.tradeFee == q.tradeFee && p.tradeFeePct == q.tradeFeePct && p.tradeFeeRange == q.tradeFeeRange
            && p.inProgress == q.inProgress ==>
      ShownTradeFee(p, false) == ShownTradeFee(q, false)
  {
  }

  /** The indicator ignores TWAP: whenever the fee row is rendered, with TWAP
      on or off and whatever the plan, it places the form's own `tradeFeePct`
      in the form's fee range, so two forms that agree on those two show the
      same indicator. */
  lemma IndicatorReadsOwnFee(p: FormProps, q: FormProps, twapEnabled: bool, twapEnabled': bool)
    requires p.tradeFeeRange == q.tradeFeeRange && p.tradeFeePct == q.tradeFeePct
    ensures var a := ShownTradeFee(p, twapEnabled);
      a.Some? && a.value.FeeShown? ==>
        a.value.indicator == (if p.tradeFeeRange.Some? then Some(FeeIndicator(p.tradeFeeRange.value, p.tradeFeePct)) else None)
    ensures var a := ShownTradeFee(p, twapEnabled); var b := ShownTradeFee(q, twapEnabled');
      a.Some? && a.value.FeeShown? && b.Some? && b.value.FeeShown? ==> a.value.indicator == b.value.indicator
  {
  }

  /** The fee indicator's classes. */
  datatype Indicator = Indicator(low: bool, medium: bool, high: bool)

  /** The indicator splits `[min, max]` into thirds and places the fee
      percentage among them. Some class always lights up, and `medium`
      never shares with another. */
  function FeeIndicator(range: FeeRange, feePct: real): (i: Indicator)
    ensures i.low || i.medium || i.high
    ensures i.medium ==> !i.low && !i.high
  {
    var fraction := (range.max - range.min) / 3.0;
    var mediumLow := range.min + fraction;
    var mediumHigh := range.max - fraction;
    Indicator(feePct < mediumLow, feePct >= mediumLow && feePct <= mediumHigh, feePct > mediumHigh)
  }

  /** For an ordered range exactly one class applies, and they follow the
      fee: below the first third is low, above the last third is high. */
  lemma FeeIndicatorExactlyOne(range: FeeRange, feePct: real)
    requires range.min <= range.max
    ensures var i := FeeIndicator(range, feePct);
      (i.low && !i.medium && !i.high) || (!i.low && i.medium && !i.high) || (!i.low && !i.medium && i.high)
    ensures feePct < range.min ==> FeeIndicator(range, feePct).low
    ensures feePct > range.max ==> FeeIndicator(range, feePct).high
  {
  }

  /** With a reversed range medium never applies, and low and high light up
      together exactly for a fee in the middle third of the range. */
  lemma FeeIndicatorReversedRange(range: FeeRange, feePct: real)
    requires range.max < range.min
    ensures !FeeIndicator(range, feePct).medium
    ensures var i := FeeIndicator(range, feePct); var third := (range.min - range.max) / 3.0;
      i.low && i.high <==> range.max + third < feePct < range.min - third
  {
  }

  // ----- TWAP versus a single swap -----

  /** `calculateTwapPriceDiff`: USD difference between the plan and the
      single swap, oriented so that positive is better for the user (more
      received on a sell, less paid on a buy). */
  function TwapPriceDiff(p: FormProps, plan: TwapPlan): real
  {
    if p.tradeType == Sell then plan.amountOutUsd - p.amountOutUsd
    else p.amountInUsd - plan.amountInUsd
  }

  /** The sign printed before the absolute difference. */
  function TwapSymbol(tradeType: TradeType, diff: real): string
  {
    if tradeType == Sell then (if diff >= 0.0 then "+$" else "-$")
    else (if diff > 0.0 then "-$" else "+$")
  }

  function Abs(x: real): real
  {
    if x < 0.0 then -x else x
  }

  /** The signed number a reader sees: the printed sign applied to `|diff|`. */
  function Displayed(symbol: string, magnitude: real): real
  {
    if symbol == "+$" then magnitude else -magnitude
  }

  /** The displayed difference is the plan's USD value minus the swap's on
      the side that varies (amount out for a sell, amount in for a buy), and
      the `positive` class is set exactly when the plan is the better deal. */
  lemma TwapDiffSigns(p: FormProps, plan: TwapPlan)
    ensures var d := TwapPriceDiff(p, plan);
      p.tradeType == Sell ==> Displayed(TwapSymbol(Sell, d), Abs(d)) == plan.amountOutUsd - p.amountOutUsd
    ensures var d := TwapPriceDiff(p, plan);
      p.tradeType == Buy ==> Displayed(TwapSymbol(Buy, d), Abs(d)) == plan.amountInUsd - p.amountInUsd
    ensures TwapPriceDiff(p, plan) > 0.0 <==>
      (if p.tradeType == Sell then plan.amountOutUsd > p.amountOutUsd else plan.amountInUsd < p.amountInUsd)
  {
  }

  // ----- route -----

  /** Each hop's output asset, by symbol. */
  function RouteSymbols(swaps: seq<Swap>, symbols: map<string, string>): (r: seq<string>)
    requires forall i | 0 <= i < |swaps| :: swaps[i].assetOut in symbols
    ensures |r| == |swaps|
    ensures forall i | 0 <= i < |swaps| :: r[i] == symbols[swaps[i].assetOut]
  {
    if swaps == [] then [] else [symbols[swaps[0].assetOut]] + RouteSymbols(swaps[1..], symbols)
  }

  /** `bestRouteTemplate`: the symbols shown after the input asset, in hop
      order for a sell and reversed for a buy. */
  function BestRoute(swaps: seq<Swap>, symbols: map<string, string>, tradeType: TradeType): (r: seq<string>)
    requires forall i | 0 <= i < |swaps| :: swaps[i].assetOut in symbols
    ensures |r| == |swaps|
    ensures tradeType == Sell ==> forall i | 0 <= i < |swaps| :: r[i] == symbols[swaps[i].assetOut]
    ensures tradeType == Buy ==> forall i | 0 <= i < |swaps| :: r[i] == symbols[swaps[|swaps| - 1 - i].assetOut]
  {
    var route := RouteSymbols(swaps, symbols);
    if tradeType == Buy then
      assert forall i | 0 <= i < |swaps| :: Reverse(route)[i] == route[|route| - 1 - i] by {
        forall i | 0 <= i < |swaps| ensures Reverse(route)[i] == route[|route| - 1 - i] {
          ReverseAt(route, i);
        }
      }
      Reverse(route)
    else route
  }

  // ----- the form element -----

  /** Both options are laid out (not `hidden`) only with a route and TWAP
      allowed. */
  predicate OptionsShown(p: FormProps)
  {
    |p.swaps| > 0 && p.twapAllowed
  }

  /** The single-swap option carries its click handler only when it is
      shown and not replaced by the skeleton of a quote in progress. */
  predicate SwapOptionLive(p: FormProps)
  {
    OptionsShown(p) && !p.inProgress
  }

  /** The TWAP option carries its click handler only when it is shown, no
      plan is being computed, a plan exists and it is not the OrderTooBig
      error template. */
  predicate TwapOptionLive(p: FormProps)
  {
    OptionsShown(p) && !p.twapProgress && p.twap.Some? && p.twap.value.tradeError != Some(OrderTooBig)
  }

  /** What the confirm button dispatches. */
  datatype CtaEvent = TwapClicked | SwapClicked

  /** The form's one piece of own state. */
  class TradeForm {
    var twapEnabled: bool

    constructor()
      ensures !twapEnabled
    {
      twapEnabled := false;
    }

    /** `enableTwap`: only a plan without an error can be switched on. */
    method EnableTwap(p: FormProps)
      modifies this
      ensures twapEnabled == (old(twapEnabled) || !IsTwapError(p))
    {
      if !IsTwapError(p) {
        twapEnabled := true;
      }
    }

    method DisableTwap()
      modifies this
      ensures !twapEnabled
    {
      twapEnabled := false;
    }

    /** Typing an amount, clicking max or clicking switch turns TWAP off. */
    method OnAmountEdited()
      modifies this
      ensures !twapEnabled
    {
      twapEnabled := false;
    }

    /** A click where the single-swap option is drawn: it reaches the
        handler only on a live option, which turns TWAP off once the
        transaction fee is known. */
    method OnSwapOptionClick(p: FormProps)
      modifies this
      ensures twapEnabled == (old(twapEnabled) && !(SwapOptionLive(p) && p.hasTransactionFee))
    {
      if SwapOptionLive(p) && p.hasTransactionFee {
        DisableTwap();
      }
    }

    /** A click where the TWAP option is drawn: it reaches the handler only on
        a live option, which turns TWAP on once the transaction fee is known
        and the plan has no error. */
    method OnTwapOptionClick(p: FormProps)
      modifies this
      ensures twapEnabled == (old(twapEnabled) || (TwapOptionLive(p) && p.hasTransactionFee && !IsTwapError(p)))
      ensures twapEnabled && !old(twapEnabled) ==> p.twap.Some? && p.twap.value.tradeError.None?
    {
      if TwapOptionLive(p) && p.hasTransactionFee {
        EnableTwap(p);
      }
    }

    /** `onCtaClick`: the TWAP event exactly when TWAP is enabled. */
    method OnCtaClick() returns (e: CtaEvent)
      ensures e == TwapClicked <==> twapEnabled
      ensures e == SwapClicked <==> !twapEnabled
    {
      if twapEnabled {
        e := TwapClicked;
      } else {
        e := SwapClicked;
      }
    }
  }

  /** With TWAP enabled, an error in the plan alone disables the button. */
  lemma TwapErrorBlocksEnable(p: FormProps)
    requires IsTwapError(p)
    ensures IsDisabled(p, true)
  {
  }
}
