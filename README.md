# Trade front-end state machines, in Dafny

This project models the client-side logic of a DEX web front-end and proves properties of that logic. The front-end is a set of Lit web components written in TypeScript. The parts modelled are:

- **the trade component** (`src/component/trade/index.ts`): the swap form's state. It covers the pair, the typed amounts, the quote merge and validation (balance, route errors and pool existence). It also covers switching sides, changing assets, balances, and whether a TWAP plan is requested.
- **the trade form** (`src/component/trade/form.ts`): how the form derives its button state, its error row, the fee indicator, the TWAP-versus-swap difference and the route. It also covers the form's own `twapEnabled` flag.
- **the DCA component** (`src/component/dca/index.ts`): the order form's pair and fields, and the mapping of scheduled positions for display.
- **the older trade screen** (`src/screen/trade.ts`): the same flow with different rules. An empty amount clears the amounts. A quote overrides every field, the typed amount included. A failed quote changes nothing.
- **the transaction centre** (`packages/apps/src/signer/TransactionCenter.ts`): routing a transaction to a signer, and mapping signer statuses to handlers. It keeps the set of broadcast ids, the current transaction and the dialog, and it emits notifications.
- **the notification centre** (`packages/apps/src/signer/NotificationCenter.ts`): it stores notifications by id, where the last write wins. It also keeps the toast list and the mounted toasts, the distinct-id badge and the drawer's ordering.
- **amount scaling** (`packages/apps/src/utils/amount.ts`): `toBn`, `formatAmount`, `exchange` and `exchangeNative` over exact reals. Two additions support them: BigNumber's reading of a plain decimal string, and ROUND_DOWN truncation.

Layout:
- **Files.**
  - `common.dfy`: `Option` and sequence reversal.
  - `amount.dfy`: amount scaling.
  - `types.dfy`: the trade types shared by the component and the form.
  - `trade.dfy` (component) and `trade_laws.dfy` (its properties).
  - `form.dfy`, `dca.dfy`, `legacy.dfy`, `notifications.dfy` and `txcenter.dfy`: one file for each of the other sources.
- **Classes.** Each component that updates fields in place is a `class` with those fields. Each of its methods is proved against a spec function over a value snapshot (`State()`). The properties are then lemmas about those functions.
- **Asynchronous calls.** A call to the router, or to a TWAP or spot-price query, becomes a returned request value. The answer is applied by a separate `Commit…` method.
- **Thrown exceptions.** The component's `validateEnoughBalance` throws on a missing balance entry; its model leaves the state as it was at the throw and reports the throw. Two other throws are treated differently:
  - the form's price-impact and fee rows dereference a missing TWAP plan; their models return `None` in that state;
  - `closeDialogGracefully` dereferences a missing dialog; `TransactionCenterModel.TransactionCenter.CloseDialog` models the tolerant close, and the throwing one is kept as the as-written half of the finding below.

## Model

| member | source | states |
|---|---|---|
| Common.ReverseAt | src/component/trade/index.ts:467 | the k-th element of a reversed sequence is the (n-1-k)-th of the original (how a Buy route is read) |
| Amount.RoundDown | packages/apps/src/utils/amount.ts:14 | ROUND_DOWN truncation lies within one unit of its input, on the side of zero |
| Amount.RoundDownInteger | packages/apps/src/utils/amount.ts:12-15 | an integer amount is left unchanged by the truncation in toBn |
| Amount.ToBnBounds | packages/apps/src/utils/amount.ts:12-15 | toBn(x, d) is x·10^d truncated toward zero: within one smallest unit, never rounded away from zero |
| Amount.ScaleFormat | packages/apps/src/utils/amount.ts:17-19 | scaling undoes formatAmount exactly |
| Amount.ToBnAfterFormat | packages/apps/src/utils/amount.ts:12-19 | a smallest-unit amount survives formatAmount then toBn unchanged |
| Amount.FormatAfterToBn | packages/apps/src/utils/amount.ts:12-19 | a human amount with at most d fraction digits survives toBn then formatAmount |
| Amount.DotIndex | packages/apps/src/utils/amount.ts:13 | the split point of a decimal string is its first '.', or its end |
| Amount.StripSpaceOrPlus | packages/apps/src/utils/amount.ts:13 | BigNumber's strip of leading whitespace, a '+' before a word character, and trailing whitespace is a slice of the input, shorter whenever it changes it |
| Amount.StripIdempotent | packages/apps/src/utils/amount.ts:13 | stripping twice is stripping once, so BigNumber's second read of a stripped string strips nothing |
| Amount.RereadAfterStrip | packages/apps/src/utils/amount.ts:13 | a string the strip changes, and that is neither plain nor an infinity, reads as the stripped string does |
| Amount.PlainDecimalValue | packages/apps/src/utils/amount.ts:13 | "whole.frac", "-whole.frac", "whole" and "-whole" read as whole + frac/10^|frac|, negated after '-' |
| Amount.SpacesIgnored | packages/apps/src/utils/amount.ts:13 | one space on either side of a string without outer whitespace or leading '+' does not change its reading |
| Amount.PlusIgnored | packages/apps/src/utils/amount.ts:13 | a leading '+' before a word character or '.' does not change the reading |
| Amount.InfinityReads | packages/apps/src/utils/amount.ts:13 | "Infinity" is positive infinity, not NaN |
| Amount.MinusInfinityReads | packages/apps/src/utils/amount.ts:13 | "-Infinity" is negative infinity |
| Amount.TruncateDecimalString | packages/apps/src/utils/amount.ts:12-15 | toBn("whole.frac", 0) is the number the whole part spells; the fraction is dropped |
| Amount.Exchange | packages/apps/src/utils/amount.ts:42-54 | null exactly when the asset is missing or has no rate |
| Amount.ExchangeAdditive | packages/apps/src/utils/amount.ts:42-54 | exchange is additive in the amount |
| Amount.ExchangeNative | packages/apps/src/utils/amount.ts:56-67 | a non-finite result exactly for a non-native asset whose rate is zero |
| Amount.ExchangeNativeBounds | packages/apps/src/utils/amount.ts:56-67 | the native asset is truncated as toBn(x, 0); any other asset gives (x / rate)·10^decimals truncated toward zero |
| TradeComponent.FirstWithErrors | src/component/trade/index.ts:467 | `find` of the first hop with errors: it has errors and no earlier hop does; none means no hop has errors |
| TradeComponent.TradeApp.ResetTrade | src/component/trade/index.ts:485-503 | the new state is the reset of the old one (amounts, USD values, route and TWAP plan cleared; balance and trade errors dropped; `[]` errors when asked) |
| TradeComponent.TradeApp.ValidateEnoughBalance | src/component/trade/index.ts:433-450 | reports a throw exactly on a missing balance entry; otherwise sets or clears only the balance error |
| TradeComponent.TradeApp.ValidateTrade | src/component/trade/index.ts:463-474 | the state after the loop over the hops is the validated trade |
| TradeComponent.TradeApp.ValidatePool | src/component/trade/index.ts:476-483 | the new state is the pool-validated one |
| TradeComponent.TradeApp.RecalculateTrade | src/component/trade/index.ts:245-253 | the request is the sell or buy quote of the active side, or none |
| TradeComponent.TradeApp.UpdateAmountIn | src/component/trade/index.ts:505-528 | new state and request as `updateAmountIn` leaves them |
| TradeComponent.TradeApp.UpdateAmountOut | src/component/trade/index.ts:530-553 | new state and request as `updateAmountOut` leaves them |
| TradeComponent.TradeApp.SwitchAssets | src/component/trade/index.ts:279-295 | pair and balances exchanged, amounts and progress as given, TWAP plan dropped |
| TradeComponent.TradeApp.Switch | src/component/trade/index.ts:297-312 | new state and request as `switch` leaves them |
| TradeComponent.TradeApp.ChangeAssetIn | src/component/trade/index.ts:314-371 | new state and request as `changeAssetIn` leaves them |
| TradeComponent.TradeApp.ChangeAssetOut | src/component/trade/index.ts:373-431 | new state and request as `changeAssetOut` leaves them |
| TradeComponent.TradeApp.CommitQuote | src/component/trade/index.ts:150-177 | a quote's answer merged, validated and followed by the TWAP request; a failed quote resets |
| TradeComponent.TradeApp.CommitTwap | src/component/trade/index.ts:136-148 | the TWAP plan stored and no longer in progress |
| TradeComponent.TradeApp.CommitSpotPrice | src/component/trade/index.ts:255-277 | the spot price stored and nothing in progress |
| TradeComponent.TradeApp.UpdateBalances | src/component/trade/index.ts:560-568 | both balances read from the balance map, formatted, or none |
| TradeComponent.TradeApp.SyncBalances | src/component/trade/index.ts:570-576 | with an account, balances updated then checked; otherwise nothing changes |
| TradeComponent.TradeApp.OnAssetInputChanged | src/component/trade/index.ts:904-909 | active side set, the matching amount updated, then the balance checked |
| TradeComponent.TradeApp.OnAssetClicked | src/component/trade/index.ts:846-856 | the selector's side changed, balances refreshed, the pool validated |
| TradeComponent.TradeApp.OnSwitchClicked | src/component/trade/index.ts:919-926 | switch followed by pool validation |
| TradeComponent.TradeApp.OnTwapToggled | src/component/trade/index.ts:928-931 | TWAP activity set and the plan for the trade's direction requested |
| TradeLaws.EmptyAmountResets | src/component/trade/index.ts:505-509 | typing "" or "0" in either field is exactly a reset and asks for nothing |
| TradeLaws.ResetIdempotent | src/component/trade/index.ts:485-503 | resetting twice is resetting once |
| TradeLaws.AmountInTyped | src/component/trade/index.ts:505-528 | with a tradeable pair: amount stored, output cleared, TWAP plan dropped, a sell of exactly that amount requested; otherwise only amountIn changes |
| TradeLaws.AmountOutTyped | src/component/trade/index.ts:530-553 | the mirror image, requesting a buy |
| TradeLaws.TradeValidatedFrame | src/component/trade/index.ts:463-474 | validateTrade changes only the route and the error map |
| TradeLaws.BalanceValidatedFrame | src/component/trade/index.ts:433-450 | validateEnoughBalance changes only the balance key of the error map |
| TradeLaws.CommitKeepsTypedSide | src/component/trade/index.ts:150-234 | a committed quote never overwrites the typed side: a sell keeps amountIn, a buy keeps amountOut; pair, slippage and progress come from the quote; a failed quote only resets |
| TradeLaws.SwitchAssetsInvolution | src/component/trade/index.ts:279-295 | switching back with the amounts transposed again restores the trade |
| TradeLaws.SwitchTwiceWithoutPair | src/component/trade/index.ts:297-300 | without a pair switch is an involution up to progress and TWAP plan, and asks for nothing |
| TradeLaws.SwitchWithPair | src/component/trade/index.ts:301-312 | with a pair: no change when switching is disallowed; otherwise the pair is exchanged and the active side's amount quoted from the other side |
| TradeLaws.SwitchRequestMatches | src/component/trade/index.ts:297-312 | every quote switch requests is for the state's own pair and amount, with the other side cleared |
| TradeLaws.StepRequestsMatch | src/component/trade/index.ts:297-553 | every request of the amount, switch and asset steps matches the state they leave, with the other side cleared and in progress |
| TradeLaws.RecalculatedRequestMatches | src/component/trade/index.ts:245-253 | recalculateTrade quotes only a selected, non-empty, tradeable pair, with the state's own amount |
| TradeLaws.SameAssetSwitches | src/component/trade/index.ts:318-322 | picking on one side the asset already on the other side is exactly a switch |
| TradeLaws.AssetInChangedCases | src/component/trade/index.ts:314-371 | the cases of changeAssetIn: no output asset (input set, balanceIn dropped, nothing else changed, no request); a pair but no amount (input set, balanceOut dropped, spot price of the new pair requested, nothing else changed); replacing the active asset (sell of the kept input, new asset active) or the other one (buy of the kept output), both in progress |
| TradeLaws.AssetOutChangedCases | src/component/trade/index.ts:373-431 | the mirror image for changeAssetOut, with the same full frame in its no-input case; its no-amount case also sets the trade in progress |
| TradeLaws.BalanceCheckSkipped | src/component/trade/index.ts:433-437 | without an input asset id, a non-empty amount or an account the balance check changes nothing |
| TradeLaws.BalanceErrorExactly | src/component/trade/index.ts:433-450 | with a known balance, the balance error is present exactly when the read amount scaled to smallest units exceeds the balance, or the amount reads as +Infinity |
| TradeLaws.InfinityAmountHitsBalance | src/component/trade/index.ts:433-450 | an input amount of "Infinity" always gets the balance error |
| TradeLaws.BalanceValidatedIdempotent | src/component/trade/index.ts:433-450 | checking the balance twice is checking once |
| TradeLaws.TranslateKnowsThreeCodes | src/component/trade/index.ts:452-461 | exactly three codes have messages; any other yields no message |
| TradeLaws.TradeValidatedSell | src/component/trade/index.ts:463-474 | Sell: no route, no change; otherwise the trade error is the first failing hop's translated first code, absent when no hop fails |
| TradeLaws.TradeValidatedBuy | src/component/trade/index.ts:463-474 | Buy: no route, no change; otherwise the stored route is reversed, the trade error is the last failing hop's translated first code, and it is absent when no hop fails |
| TradeLaws.TradeValidatedBuyUsesLastHop | src/component/trade/index.ts:463-474 | Buy reverses the stored route in place and reports the last failing hop of the original order |
| TradeLaws.PoolErrorCases | src/component/trade/index.ts:105-116 | no pool error unless both ids are set; equal ids are an error |
| TradeLaws.PoolValidatedCases | src/component/trade/index.ts:476-483 | an untradeable pair gets the pool error and a reset; a tradeable one loses only the pool error |
| TradeLaws.ClickedSameAssetNoPoolError | src/component/trade/index.ts:846-856 | picking on the input side the asset on the output side never leaves a pool error |
| TradeLaws.TwapRequestedOnlyWhenActive | src/component/trade/index.ts:136-148 | a TWAP plan is requested only with the feature on and TWAP active |
| TradeFormModel.OtherKey | src/component/trade/form.ts:371-375 | an error map minus one key is non-empty exactly when another key is present |
| TradeFormModel.DisabledExactly | src/component/trade/form.ts:381-394 | with TWAP: disabled exactly for a disabled form, a non-trade error or a plan error; without: a disabled form or any error |
| TradeFormModel.ErrorRowExactly | src/component/trade/form.ts:986-990 | the error row shows exactly with a route, TWAP off and a non-balance error |
| TradeFormModel.ShownPriceImpact | src/component/trade/form.ts:509-513 | None (the template throws) exactly when TWAP is enabled without a plan |
| TradeFormModel.ShownTradeFee | src/component/trade/form.ts:537-586 | a skeleton exactly while a quote is in progress; otherwise None (the template throws) exactly when TWAP is enabled without a plan |
| TradeFormModel.FeeIndicator | src/component/trade/form.ts:558-570 | at least one class applies, and medium excludes the other two |
| TradeFormModel.ShownRowsReadOneSource | src/component/trade/form.ts:509-556 | under TWAP the impact and fee rows depend only on the plan and the progress flag, without TWAP only on the quote's own fields |
| TradeFormModel.IndicatorReadsOwnFee | src/component/trade/form.ts:547-570 | the rendered indicator is FeeIndicator of the form's own fee percentage and range, whatever the TWAP state or plan |
| TradeFormModel.FeeIndicatorExactlyOne | src/component/trade/form.ts:558-570 | for an ordered range exactly one of low, medium and high applies |
| TradeFormModel.FeeIndicatorReversedRange | src/component/trade/form.ts:558-570 | for any reversed range (min above max) medium never applies, and low and high apply together exactly when the fee lies in the middle third of the range |
| TradeFormModel.TwapDiffSigns | src/component/trade/form.ts:660-682 | the signed value shown is the plan's USD amount minus the swap's; `positive` exactly when the plan is the better deal |
| TradeFormModel.RouteSymbols | src/component/trade/form.ts:625-641 | one symbol per hop, the symbol of its output asset |
| TradeFormModel.BestRoute | src/component/trade/form.ts:625-641 | a Sell shows the hops in order, a Buy in reverse |
| TradeFormModel.TradeForm.EnableTwap | src/component/trade/form.ts:400-405 | TWAP turned on unless the plan has an error |
| TradeFormModel.TradeForm.DisableTwap | src/component/trade/form.ts:407-410 | TWAP turned off |
| TradeFormModel.TradeForm.OnAmountEdited | src/component/trade/form.ts:722-724 | editing an amount, a max click or a switch turns TWAP off |
| TradeFormModel.TradeForm.OnSwapOptionClick | src/component/trade/form.ts:859-881 | TWAP turned off exactly when the single-swap option is live (a route exists, TWAP is allowed, no quote in progress, so neither hidden nor a skeleton) and the transaction fee is known; otherwise unchanged |
| TradeFormModel.TradeForm.OnTwapOptionClick | src/component/trade/form.ts:893-931 | TWAP turned on exactly when the TWAP option is live (shown, no plan being computed, a plan present and not the OrderTooBig template), the transaction fee is known and the plan has no error; a newly enabled TWAP always has an error-free plan |
| TradeFormModel.TradeForm.OnCtaClick | src/component/trade/form.ts:443-454 | the TWAP event exactly when TWAP is enabled, the swap event otherwise |
| TradeFormModel.TwapErrorBlocksEnable | src/component/trade/form.ts:381-391 | with TWAP on, a plan error alone disables the button |
| DcaComponent.MapPositions | src/component/dca/index.ts:268-277 | one mapped position per scheduled one, in order |
| DcaComponent.DcaApp.Switch | src/component/dca/index.ts:111-118 | pair exchanged; a spot price requested exactly when both assets are set |
| DcaComponent.DcaApp.ChangeAssetIn | src/component/dca/index.ts:120-134 | the output asset picked as input switches; otherwise the input is replaced |
| DcaComponent.DcaApp.ChangeAssetOut | src/component/dca/index.ts:136-150 | the mirror image |
| DcaComponent.DcaApp.UpdateAmountIn | src/component/dca/index.ts:152-157 | only amountIn changes |
| DcaComponent.DcaApp.UpdateAmountInBudget | src/component/dca/index.ts:159-164 | only the budget changes |
| DcaComponent.DcaApp.UpdateMaxPrice | src/component/dca/index.ts:166-171 | only the maximum price changes |
| DcaComponent.DcaApp.OnAssetClicked | src/component/dca/index.ts:333-337 | `assetIn` and `assetGet` selectors route to the two sides; others change nothing |
| DcaComponent.DcaApp.OnInputChanged | src/component/dca/index.ts:370-374 | the three field ids route to their updates; others change nothing |
| DcaComponent.DcaApp.CommitSpotPrice | src/component/dca/index.ts:93-109 | the formatted spot price stored |
| DcaComponent.DcaApp.SyncPositions | src/component/dca/index.ts:263-280 | positions replaced by the mapping when metadata is present and covers them |
| DcaComponent.DcaSwitchInvolution | src/component/dca/index.ts:111-118 | switching twice restores the pair |
| DcaComponent.DcaChangeAssetCases | src/component/dca/index.ts:120-150 | a same-id pick is a switch; any other changes only its side and asks for no price |
| DcaComponent.DcaClickKeepsPairDistinct | src/component/dca/index.ts:120-150 | a pair of two different assets stays one after any click |
| DcaComponent.DcaInputChangesOneField | src/component/dca/index.ts:370-374 | each field event changes at most its own field |
| DcaComponent.PositionsMapping | src/component/dca/index.ts:263-280 | without metadata the list stays; with it the mapping keeps count and order, maps ids to symbols, and scales each amount so that scaling back gives the original |
| LegacyTradeScreen.TradeScreen.ClearAmounts | src/screen/trade.ts:224-232 | amounts and spot price nulled, route emptied |
| LegacyTradeScreen.TradeScreen.UpdateAmountIn | src/screen/trade.ts:234-251 | new state and request as `updateAmountIn` leaves them |
| LegacyTradeScreen.TradeScreen.UpdateAmountOut | src/screen/trade.ts:253-270 | new state and request as `updateAmountOut` leaves them |
| LegacyTradeScreen.TradeScreen.SwitchAndReCalculateSell | src/screen/trade.ts:108-120 | pair exchanged, the old output amount sold |
| LegacyTradeScreen.TradeScreen.SwitchAndReCalculateBuy | src/screen/trade.ts:122-134 | pair exchanged, the old input amount bought |
| LegacyTradeScreen.TradeScreen.SwitchAssets | src/screen/trade.ts:136-152 | plain transposition without a pair or amounts, else re-quote from the active side |
| LegacyTradeScreen.TradeScreen.ChangeAssetIn | src/screen/trade.ts:154-187 | new state and request as `changeAssetIn` leaves them |
| LegacyTradeScreen.TradeScreen.ChangeAssetOut | src/screen/trade.ts:189-222 | new state and request as `changeAssetOut` leaves them |
| LegacyTradeScreen.TradeScreen.CommitBest | src/screen/trade.ts:80-106 | every quote field overrides the state; a rejected quote changes nothing |
| LegacyTradeScreen.TradeScreen.UpdateBalances | src/screen/trade.ts:272-280 | both balances read from the balance map |
| LegacyTradeScreen.TradeScreen.OnAssetClicked | src/screen/trade.ts:370-376 | the selector's side changed, then balances refreshed |
| LegacyTradeScreen.TradeScreen.OnAssetInputChanged | src/screen/trade.ts:398-402 | active side set and the matching amount updated |
| LegacyTradeScreen.ClearedExactly | src/screen/trade.ts:224-232 | clearAmounts touches only the amounts, the spot price and the route, and is idempotent |
| LegacyTradeScreen.LegacyEmptyAmountClears | src/screen/trade.ts:234-239 | "" or "0" in either field clears and asks for nothing |
| LegacyTradeScreen.LegacyTypedAmount | src/screen/trade.ts:241-251 | with a pair the typed amount is not stored (the quote brings it), the other side is cleared and that amount quoted |
| LegacyTradeScreen.LegacySwitchInvolution | src/screen/trade.ts:136-147 | without a pair or amounts, switching twice is the identity |
| LegacyTradeScreen.SwitchAndRecalculate | src/screen/trade.ts:108-134 | a sell re-quote moves the old output amount to the input; a buy re-quote the old input to the output |
| LegacyTradeScreen.LegacyAssetInCases | src/screen/trade.ts:154-187 | the three cases of changeAssetIn, with no same-asset switch |
| LegacyTradeScreen.LegacyAssetOutCases | src/screen/trade.ts:189-222 | the three cases of changeAssetOut |
| LegacyTradeScreen.LegacyQuoteOverridesAmounts | src/screen/trade.ts:80-106 | after a commit both amounts are the quote's, whatever was typed |
| LegacyTradeScreen.LegacyClickRefreshesBalances | src/screen/trade.ts:370-376 | after a click the chosen asset is on its side and its balance is read afresh |
| Notifications.Timeout | packages/apps/src/signer/NotificationCenter.ts:68 | 5000 ms exactly for success toasts, 0 otherwise |
| Notifications.ToastOf | packages/apps/src/signer/NotificationCenter.ts:63-85 | a toast carries its notification's id, type, message and time, with the type's timeout |
| Notifications.WithoutId | packages/apps/src/signer/NotificationCenter.ts:87-96 | no remaining toast carries the id |
| Notifications.NatToString | packages/apps/src/signer/NotificationCenter.ts:118 | a non-empty run of decimal digits |
| Notifications.Values | packages/apps/src/signer/NotificationCenter.ts:146 | the map's values in insertion order |
| Notifications.OfGroup | packages/apps/src/signer/NotificationCenter.ts:147-151 | the filter keeps only its group and invents nothing |
| Notifications.Insert | packages/apps/src/signer/NotificationCenter.ts:148 | inserting into a newest-first list keeps it newest first and adds exactly one element |
| Notifications.SortNewestFirst | packages/apps/src/signer/NotificationCenter.ts:148 | the sort is a permutation and newest first |
| Notifications.SortedGroup | packages/apps/src/signer/NotificationCenter.ts:146-153 | a sorted group is a permutation of the filter, newest first, of one type group |
| Notifications.NotificationCenter.Append | packages/apps/src/signer/NotificationCenter.ts:28-34 | stored under its id (last write wins), a toast appended exactly when `toast`, the invariant kept |
| Notifications.NotificationCenter.CloseToast | packages/apps/src/signer/NotificationCenter.ts:87-101 | every mounted toast with the id removed, the others kept in order |
| Notifications.NotificationCenter.ToastCount | packages/apps/src/signer/NotificationCenter.ts:103-111 | the number of distinct ids among mounted toasts |
| Notifications.NotificationCenter.BadgeText | packages/apps/src/signer/NotificationCenter.ts:113-125 | the badge for the current count |
| Notifications.BadgeExactly | packages/apps/src/signer/NotificationCenter.ts:113-125 | "1 of N" exactly when N > 1, and N reads back from the text |
| Notifications.NatToStringValue | packages/apps/src/signer/NotificationCenter.ts:118 | the digits of N spell N |
| Notifications.CountIsDistinctIds | packages/apps/src/signer/NotificationCenter.ts:103-111 | a second toast for a mounted id does not raise the count; a new id raises it by one |
| Notifications.CloseRemovesAllWithId | packages/apps/src/signer/NotificationCenter.ts:87-101 | after closing, the mounted ids are the old ones minus exactly that id |
| Notifications.GroupsPartition | packages/apps/src/signer/NotificationCenter.ts:146-153 | the two groups together hold every notification exactly as often as the input |
| Notifications.ConcatOrdering | packages/apps/src/signer/NotificationCenter.ts:146-153 | progress list then other list is in drawer order |
| Notifications.DrawerOrdering | packages/apps/src/signer/NotificationCenter.ts:146-153 | the drawer is a permutation of the notifications, progress first, each group newest first |
| Notifications.ValuesEachOnce | packages/apps/src/signer/NotificationCenter.ts:16 | the drawer's input holds every stored notification, none twice |
| TransactionCenterModel.ToLower | packages/apps/src/signer/TransactionCenter.ts:97 | lowering keeps the length |
| TransactionCenterModel.TransactionCenter.SendNotification | packages/apps/src/signer/TransactionCenter.ts:198-222 | one notification appended to the outbox |
| TransactionCenterModel.TransactionCenter.HandleBroadcasted | packages/apps/src/signer/TransactionCenter.ts:147-162 | state as `handleBroadcasted` leaves it |
| TransactionCenterModel.TransactionCenter.HandleError | packages/apps/src/signer/TransactionCenter.ts:164-167 | state as `handleError` leaves it |
| TransactionCenterModel.TransactionCenter.CloseDialog | packages/apps/src/signer/TransactionCenter.ts:230-234 | no dialog and no current transaction |
| TransactionCenterModel.TransactionCenter.HandleInBlock | packages/apps/src/signer/TransactionCenter.ts:169-196 | state as the corrected `handleInBlock` leaves it |
| TransactionCenterModel.TransactionCenter.CloseBroadcastDialog | packages/apps/src/signer/TransactionCenter.ts:236-239 | dialog closed, then a progress toast |
| TransactionCenterModel.TransactionCenter.Apply | packages/apps/src/signer/TransactionCenter.ts:91-120 | a signer callback dispatched to its handler |
| TransactionCenterModel.BroadcastIdempotent | packages/apps/src/signer/TransactionCenter.ts:147-162 | the first broadcast records the id, makes it current and sends one progress notification without a toast; a repeat changes nothing |
| TransactionCenterModel.InBlockEmitsOne | packages/apps/src/signer/TransactionCenter.ts:169-196 | exactly one toast with the meta: error with the failure text iff failed, else success; dialog and current cleared exactly when the id is current |
| TransactionCenterModel.ErrorAlwaysEmits | packages/apps/src/signer/TransactionCenter.ts:164-167 | an error notification without a toast and the failure dialog, whether or not the id was broadcast |
| TransactionCenterModel.CloseBroadcastDialogEmits | packages/apps/src/signer/TransactionCenter.ts:236-239 | no current transaction, then a progress toast |
| TransactionCenterModel.ToLowerIdempotent | packages/apps/src/signer/TransactionCenter.ts:97 | lowering twice is lowering once |
| TransactionCenterModel.SubstrateMapping | packages/apps/src/signer/TransactionCenter.ts:91-120 | broadcast, inblock (error iff ExtrinsicFailed, meta blockHash and txIndex) and finalized-with-dispatch-error, after lowering; case does not matter |
| TransactionCenterModel.EvmMapping | packages/apps/src/signer/TransactionCenter.ts:76-84 | an EVM confirmation fails exactly when the status is not "success", with empty meta |
| TransactionCenterModel.FinalizedOverridesSuccess | packages/apps/src/signer/TransactionCenter.ts:110-115 | a dispatch error at finalization after a successful inclusion leaves an error as the last notification |
| TransactionCenterModel.RoutingCases | packages/apps/src/signer/TransactionCenter.ts:122-145 | EVM signer exactly for EVM wallets; tx, scheduleDca and terminateDca on hydration; xcm on its source chain |
| TransactionCenterModel.InBlockAsWrittenLosesNotification | packages/apps/src/signer/TransactionCenter.ts:224-228 | as written, inclusion after another transaction's failure dialog throws and sends nothing |
| TransactionCenterModel.InBlockAgreesWhenDialogPresent | packages/apps/src/signer/TransactionCenter.ts:169-196 | where the as-written handler does not throw, it equals the corrected one |

## Findings

| source | as written | input that shows it | evidently intended | confidence | as-written member | corrected member |
|---|---|---|---|---|---|---|
| packages/apps/src/signer/TransactionCenter.ts:169-228 | `handleInBlock` closes the dialog whenever the id is `currentTx`. `closeDialogGracefully` looks the dialog up by id and dereferences it without a null check. | Transaction "a" is broadcast. Transaction "b" then fails, and its failure dialog replaces "a"'s dialog. "a" is then included. The lookup finds no dialog "a" and throws, so "a"'s success or error toast is never sent. | Every inclusion sends exactly one toast notification; a missing dialog is skipped. | medium, not executed | TransactionCenterModel.InBlockAsWrittenLosesNotification | TransactionCenterModel.InBlockEmitsOne |

## Left out

Behaviours a reader may not expect, modelled as written:
- The notification badge counts distinct toast ids, not toast instances: ids a, b, a read "1 of 2". `Notifications.NotificationCenter.ToastCount` states the distinct count.
- The trade component's `changeAssetIn`, when no amount is set, nulls `balanceOut`, not `balanceIn`, and does not set `inProgress`. `changeAssetOut` does set it. Both are modelled as written. In the click handler `updateBalances` follows at once, so the stale balance is never visible.
- A failed quote in the trade component is not a distinct state. `safeSell` resets the trade and returns `undefined`, and destructuring that throws. The commit therefore leaves a plain reset and starts no TWAP request.
- After an asset pick the trade component sets `twap` to null, while the form's `twapEnabled` stays on until an amount edit, a max click or a switch. In that state the form's `isSellTwap`/`isBuyTwap` hold (src/component/trade/form.ts:363-369), so the asset-in and asset-out templates read fields of the null plan (form.ts:708, 748, both called at 994-995). The whole render of the form throws and the previous DOM stays on screen, whether or not a quote is in progress. `TradeFormModel.ShownPriceImpact` and `TradeFormModel.ShownTradeFee` return `None` to mark that state; the fee row's skeleton is never reached there.
- A missing balance entry makes `validateEnoughBalance` throw. The model leaves the state as it was, and a commit that hits the throw does not request a TWAP plan.

Not modelled, with the reason:
- I/O and the SDK are left out: router calls, wallet signing, chain APIs, DOM queries, `i18n.t` texts (modelled as opaque tokens), `Date.now()` (a parameter), `short.generate()` (the id is a parameter), `console` output and `updateQueryParams`.
- Staleness of asynchronous answers is not modelled: a commit applies whatever answer it is given, and two overlapping requests are not tracked.
- `humanizeAmount` and `calculateDollarPrice` are left out, because they are locale formatting and SDK pricing. The USD strings arrive with the quote.
- The spot-price conversion for a Buy (`scale(ONE, d).div(amount)`) is left out; the committed spot price is a parameter.
- `updateMaxAmountIn`/`updateMaxAmountOut`, `syncTransactionFee`/`calculateTransactionFee`, `swap`, `dca`, `onInit`, `onAccountChange`, `onBlockChange`, tabs and resize handling are left out. They build or send transactions, or only lay out the page.
- The trade component's TWAP request (`getSellTwap`/`getBuyTwap`) is modelled as a request and its reply; the fee argument (`calculateAssetPrice`) is not computed.
- The form's `calculateTwapPctDiff` is left out: it calls the SDK's `calculateDiffToRef`, which is not part of this model.
- The form's `getTwapTxFee` and all templates are left out; numeric strings in the form's props are modelled as reals.
- TradeFormModel.TwapDiffSigns: holds only because the swap's USD amounts are modelled as reals. In the source they arrive formatted by `humanizeAmount` (src/component/trade/index.ts:164-166, 223-225), which groups digits with spaces from 1000 up (packages/apps/src/utils/amount.ts:36-39). `bnum` reads such a string as NaN (src/component/trade/form.ts:426), so the difference is NaN, the sign shown is "-$" for a sell and "+$" for a buy, and neither `positive` nor `negative` is set. For swaps worth $1000 or more the comparison is therefore blank in the source.
- Amount.ParseDecimal: reads decimal notation, an optional '-', surrounding whitespace, a leading '+' and "Infinity". BigNumber's exponent forms ("1e5") and base-prefixed forms ("0x10") are read as NaN here, and "NaN" is NaN as in the source.
- Amount.ExchangeNative: divides exactly, where BigNumber divides to 20 decimal places before scaling.
- Amount: `humanizeAmount` is left out (locale formatting, floating point).
- TransactionCenterModel.ToLower: lowers ASCII letters only. The status types are ASCII names.
- TransactionCenterModel.Routed: takes the wallet provider as the `WalletProvider` value itself and `EVM_PROVIDERS` as a parameter, because the provider table is not part of this model.
- The transaction centre's `txRecord(events)` lookup and `logDispatchError` are left out. The event's method name and the presence of a dispatch error are parameters.
- The notification centre's toasts as Lit renders them are not modelled. The model keeps the mounted toasts as a sequence that `Append` extends and `CloseToast` filters, and does not model how Lit re-renders manually removed nodes.
- The notification centre's drawer sort is modelled as a stable insertion sort. The proofs state the order and the permutation, not stability.
- The dialog's 3-second timeout is left out. It reaches the model as a `CloseBroadcastDialog` call.
- The DCA component's `schedule`, `processTx` and the schedule form's validation are left out, because they build transactions.
