/** The DCA (dollar-cost averaging) component (src/component/dca/index.ts):
    the order form's pair and fields, and the list of scheduled positions. */
module DcaComponent {
  import opened Common
  import opened Amount
  import opened TradeTypes

  /** `DcaState`: the pair, the typed fields and the pair's spot price. */
  datatype DcaState = DcaState(
    assetIn: Option<Asset>,
    assetOut: Option<Asset>,
    amountIn: Option<string>,
    amountInBudget: Option<string>,
    maxPrice: Option<string>,
    interval: string,
    spotPrice: Option<real>)

  /** A scheduled DCA position. Before the mapping `assetIn`/`assetOut` are
      asset ids and `amount` is in smallest units; after it they are symbols
      and a human amount. `rest` stands for the fields copied unchanged. */
  datatype Position = Position(assetIn: string, assetOut: string, amount: real, rest: string)

  /** The asset metadata the mapping reads. */
  datatype AssetMeta = AssetMeta(symbol: string, decimals: nat)

  predicate IsEmptyAmount(amount: string)
  {
    amount == "" || amount == "0"
  }

  // ----- spec functions -----

  /** `switch`: exchange the pair. */
  function DcaSwitched(s: DcaState): DcaState
  {
    s.(assetIn := s.assetOut, assetOut := s.assetIn)
  }

  /** Whether `recalculateSpotPrice` asks the router (both assets set). */
  predicate SpotPriceRequested(s: DcaState)
  {
    s.assetIn.Some? && s.assetOut.Some?
  }

  /** `changeAssetIn`: the output asset picked as input switches; any other
      asset just becomes the input. Returns whether a spot price is requested. */
  function DcaAssetInChanged(s: DcaState, asset: Asset): (DcaState, bool)
  {
    if s.assetOut.Some? && asset.id == s.assetOut.value.id then
      (DcaSwitched(s), SpotPriceRequested(DcaSwitched(s)))
    else (s.(assetIn := Some(asset)), false)
  }

  /** `changeAssetOut`: the mirror image. */
  function DcaAssetOutChanged(s: DcaState, asset: Asset): (DcaState, bool)
  {
    if s.assetIn.Some? && asset.id == s.assetIn.value.id then
      (DcaSwitched(s), SpotPriceRequested(DcaSwitched(s)))
    else (s.(assetOut := Some(asset)), false)
  }

  /** The selector's `asset-clicked` event: `assetIn` and `assetGet` route to
      the two sides; any other selector changes nothing. */
  function DcaAssetClicked(s: DcaState, id: string, asset: Asset): (DcaState, bool)
  {
    if id == "assetIn" then DcaAssetInChanged(s, asset)
    else if id == "assetGet" then DcaAssetOutChanged(s, asset)
    else (s, false)
  }

  /** The form's `asset-input-changed` event. */
  function DcaInputChanged(s: DcaState, id: string, value: string): DcaState
  {
    if id == "assetIn" then s.(amountIn := Some(value))
    else if id == "assetInBudget" then s.(amountInBudget := Some(value))
    else if id == "maxPrice" then s.(maxPrice := Some(value))
    else s
  }

  /** One position with ids replaced by symbols and the amount scaled down
      by the input asset's decimals. */
  function MapPosition(p: Position, meta: map<string, AssetMeta>): Position
    requires p.assetIn in meta && p.assetOut in meta
  {
    p.(assetIn := meta[p.assetIn].symbol, assetOut := meta[p.assetOut].symbol,
       amount := FormatAmount(p.amount, meta[p.assetIn].decimals))
  }

  /** Every position's assets have metadata. */
  predicate MetaCovers(scheduled: seq<Position>, meta: map<string, AssetMeta>)
  {
    forall i | 0 <= i < |scheduled| :: scheduled[i].assetIn in meta && scheduled[i].assetOut in meta
  }

  /** `scheduled.map(...)`. */
  function MapPositions(scheduled: seq<Position>, meta: map<string, AssetMeta>): (r: seq<Position>)
    requires MetaCovers(scheduled, meta)
    ensures |r| == |scheduled|
    ensures forall i | 0 <= i < |r| :: r[i] == MapPosition(scheduled[i], meta)
  {
    if scheduled == [] then [] else [MapPosition(scheduled[0], meta)] + MapPositions(scheduled[1..], meta)
  }

  /** `syncPositions` once the scheduled list arrived: without metadata the
      old list stays; a position whose asset has no metadata throws, which
      also leaves the old list. */
  function PositionsSynced(old_: seq<Position>, scheduled: seq<Position>, meta: Option<map<string, AssetMeta>>): seq<Position>
  {
    if meta.Some? && MetaCovers(scheduled, meta.value) then MapPositions(scheduled, meta.value) else old_
  }

  // ----- the component -----

  class DcaApp {
    var dca: DcaState
    var positions: seq<Position>

    constructor(initial: DcaState)
      ensures dca == initial && positions == []
    {
      dca := initial;
      positions := [];
    }

    /** Returns whether a spot price is requested. */
    method Switch() returns (spot: bool)
      modifies this
      ensures dca == DcaSwitched(old(dca)) && positions == old(positions)
      ensures spot == SpotPriceRequested(dca)
    {
      dca := dca.(assetIn := dca.assetOut, assetOut := dca.assetIn);
      spot := dca.assetIn.Some? && dca.assetOut.Some?;
    }

    method ChangeAssetIn(previous: Option<string>, asset: Asset) returns (spot: bool)
      modifies this
      ensures (dca, spot) == DcaAssetInChanged(old(dca), asset) && positions == old(positions)
    {
      var assetOut := dca.assetOut;
      if assetOut.Some? && asset.id == assetOut.value.id {
        spot := Switch();
        return;
      }
      dca := dca.(assetIn := Some(asset));
      spot := false;
    }

    method ChangeAssetOut(previous: Option<string>, asset: Asset) returns (spot: bool)
      modifies this
      ensures (dca, spot) == DcaAssetOutChanged(old(dca), asset) && positions == old(positions)
    {
      var assetIn := dca.assetIn;
      if assetIn.Some? && asset.id == assetIn.value.id {
        spot := Switch();
        return;
      }
      dca := dca.(assetOut := Some(asset));
      spot := false;
    }

    method UpdateAmountIn(amount: string)
      modifies this
      ensures dca == old(dca).(amountIn := Some(amount)) && positions == old(positions)
    {
      dca := dca.(amountIn := Some(amount));
    }

    method UpdateAmountInBudget(amount: string)
      modifies this
      ensures dca == old(dca).(amountInBudget := Some(amount)) && positions == old(positions)
    {
      dca := dca.(amountInBudget := Some(amount));
    }

    method UpdateMaxPrice(amount: string)
      modifies this
      ensures dca == old(dca).(maxPrice := Some(amount)) && positions == old(positions)
    {
      dca := dca.(maxPrice := Some(amount));
    }

    method OnAssetClicked(id: string, previous: Option<string>, asset: Asset) returns (spot: bool)
      modifies this
      ensures (dca, spot) == DcaAssetClicked(old(dca), id, asset) && positions == old(positions)
    {
      spot := false;
      if id == "assetIn" {
        spot := ChangeAssetIn(previous, asset);
      } else if id == "assetGet" {
        spot := ChangeAssetOut(previous, asset);
      }
    }

    method OnInputChanged(id: string, value: string)
      modifies this
      ensures dca == DcaInputChanged(old(dca), id, value) && positions == old(positions)
    {
      if id == "assetIn" {
        UpdateAmountIn(value);
      } else if id == "assetInBudget" {
        UpdateAmountInBudget(value);
      } else if id == "maxPrice" {
        UpdateMaxPrice(value);
      }
    }

    /** The router's spot price arrived (`formatAmount(price.amount, price.decimals)`). */
    method CommitSpotPrice(price: Rate)
      modifies this
      ensures dca == old(dca).(spotPrice := Some(FormatAmount(price.amount, price.decimals)))
      ensures positions == old(positions)
    {
      dca := dca.(spotPrice := Some(FormatAmount(price.amount, price.decimals)));
    }

    method SyncPositions(scheduled: seq<Position>, meta: Option<map<string, AssetMeta>>)
      modifies this
      ensures positions == PositionsSynced(old(positions), scheduled, meta) && dca == old(dca)
    {
      if meta.Some? && MetaCovers(scheduled, meta.value) {
        positions := MapPositions(scheduled, meta.value);
      }
    }
  }

  // ----- properties -----

  /** Switching twice restores the pair; switching exchanges it. */
  lemma DcaSwitchInvolution(s: DcaState)
    ensures DcaSwitched(DcaSwitched(s)) == s
    ensures DcaSwitched(s).assetIn == s.assetOut && DcaSwitched(s).assetOut == s.assetIn
  {
  }

  /** Choosing the asset on the other side switches; any other choice
      changes only the chosen side and asks for no price. */
  lemma DcaChangeAssetCases(s: DcaState, asset: Asset)
    ensures s.assetOut.Some? && asset.id == s.assetOut.value.id ==>
      DcaAssetInChanged(s, asset).0 == DcaSwitched(s)
    ensures !(s.assetOut.Some? && asset.id == s.assetOut.value.id) ==>
      DcaAssetInChanged(s, asset) == (s.(assetIn := Some(asset)), false)
    ensures s.assetIn.Some? && asset.id == s.assetIn.value.id ==>
      DcaAssetOutChanged(s, asset).0 == DcaSwitched(s)
    ensures !(s.assetIn.Some? && asset.id == s.assetIn.value.id) ==>
      DcaAssetOutChanged(s, asset) == (s.(assetOut := Some(asset)), false)
  {
  }

  /** After any asset click the pair never holds the same asset object twice
      unless it already did (a same-id pick becomes a switch). */
  lemma DcaClickKeepsPairDistinct(s: DcaState, id: string, asset: Asset)
    requires s.assetIn.Some? && s.assetOut.Some? && s.assetIn.value.id != s.assetOut.value.id
    ensures var r := DcaAssetClicked(s, id, asset).0;
      r.assetIn.Some? && r.assetOut.Some? && r.assetIn.value.id != r.assetOut.value.id
  {
  }

  /** Each field update changes only its own field. */
  lemma DcaInputChangesOneField(s: DcaState, id: string, value: string)
    ensures var r := DcaInputChanged(s, id, value);
      r.assetIn == s.assetIn && r.assetOut == s.assetOut && r.interval == s.interval && r.spotPrice == s.spotPrice
    ensures var r := DcaInputChanged(s, id, value);
      (r.amountIn != s.amountIn ==> id == "assetIn")
      && (r.amountInBudget != s.amountInBudget ==> id == "assetInBudget")
      && (r.maxPrice != s.maxPrice ==> id == "maxPrice")
  {
  }

  /** The mapping keeps the positions' number and order, rewrites the asset
      ids to symbols and scales the amount down; a position's smallest-unit
      amount comes back from the shown one. */
  lemma {:induction false} PositionsMapping(old_: seq<Position>, scheduled: seq<Position>, meta: Option<map<string, AssetMeta>>)
    ensures var r := PositionsSynced(old_, scheduled, meta);
      meta.None? ==> r == old_
    ensures var r := PositionsSynced(old_, scheduled, meta);
      meta.Some? && MetaCovers(scheduled, meta.value) ==>
        |r| == |scheduled|
        && forall i | 0 <= i < |r| ::
             r[i].assetIn == meta.value[scheduled[i].assetIn].symbol
             && r[i].assetOut == meta.value[scheduled[i].assetOut].symbol
             && r[i].rest == scheduled[i].rest
             && Scale(r[i].amount, meta.value[scheduled[i].assetIn].decimals) == scheduled[i].amount
  {
    if meta.Some? && MetaCovers(scheduled, meta.value) {
      var r := MapPositions(scheduled, meta.value);
      forall i | 0 <= i < |r|
        ensures Scale(r[i].amount, meta.value[scheduled[i].assetIn].decimals) == scheduled[i].amount
      {
        ScaleFormat(scheduled[i].amount, meta.value[scheduled[i].assetIn].decimals);
      }
    }
  }
}
