// The auto-trade portfolio view: one holding per open position, valued at the
// asset's stored price (the entry price when none is stored), with its
// unrealised profit and the portfolio totals.

module Portfolio {
  import opened Base
  import opened TradeRisk

  datatype AssetHolding = AssetHolding(assetId: nat, amount: int, currentValue: int, avgEntryPrice: int, unrealizedPnl: int)

  datatype PortfolioView = PortfolioView(assets: seq<AssetHolding>, totalValue: int, totalPnl: int)

  /** The price a holding is valued at. */
  function CurrentPrice(p: Position, prices: map<nat, int>): int
  {
    if p.assetId in prices then prices[p.assetId] else p.entryPrice
  }

  /** The holding reported for a position. */
  function HoldingOf(p: Position, prices: map<nat, int>): (h: AssetHolding)
    ensures h.assetId == p.assetId && h.amount == p.amount && h.avgEntryPrice == p.entryPrice
    ensures h.currentValue == p.amount * CurrentPrice(p, prices)
    ensures h.unrealizedPnl == h.currentValue - p.amount * p.entryPrice
    ensures p.assetId !in prices ==> h.unrealizedPnl == 0 && h.currentValue == p.amount * p.entryPrice
  {
    var price := CurrentPrice(p, prices);
    AssetHolding(p.assetId, p.amount, p.amount * price, p.entryPrice, (price - p.entryPrice) * p.amount)
  }

  /** The holdings of the positions, in the same order. */
  function Holdings(ps: seq<Position>, prices: map<nat, int>): (hs: seq<AssetHolding>)
    ensures |hs| == |ps|
    ensures forall i :: 0 <= i < |ps| ==> hs[i] == HoldingOf(ps[i], prices)
  {
    if ps == [] then [] else Holdings(ps[..|ps| - 1], prices) + [HoldingOf(ps[|ps| - 1], prices)]
  }

  function TotalValue(hs: seq<AssetHolding>): int
  {
    if hs == [] then 0 else TotalValue(hs[..|hs| - 1]) + hs[|hs| - 1].currentValue
  }

  function TotalPnl(hs: seq<AssetHolding>): int
  {
    if hs == [] then 0 else TotalPnl(hs[..|hs| - 1]) + hs[|hs| - 1].unrealizedPnl
  }

  /** The total profit is the total value less what the positions cost at entry. */
  function CostBasis(ps: seq<Position>): int
  {
    if ps == [] then 0 else CostBasis(ps[..|ps| - 1]) + ps[|ps| - 1].amount * ps[|ps| - 1].entryPrice
  }

  lemma {:induction false} PnlIsValueLessCost(ps: seq<Position>, prices: map<nat, int>)
    ensures TotalPnl(Holdings(ps, prices)) == TotalValue(Holdings(ps, prices)) - CostBasis(ps)
  {
    if ps != [] {
      var hs := Holdings(ps, prices);
      PnlIsValueLessCost(ps[..|ps| - 1], prices);
      assert hs[..|hs| - 1] == Holdings(ps[..|ps| - 1], prices);
    }
  }

  /** Without any stored price the portfolio shows no profit or loss. */
  lemma {:induction false} UnpricedNoPnl(ps: seq<Position>, prices: map<nat, int>)
    requires forall i :: 0 <= i < |ps| ==> ps[i].assetId !in prices
    ensures TotalPnl(Holdings(ps, prices)) == 0
  {
    if ps != [] {
      var hs := Holdings(ps, prices);
      UnpricedNoPnl(ps[..|ps| - 1], prices);
      assert hs[..|hs| - 1] == Holdings(ps[..|ps| - 1], prices);
    }
  }

  /** Unlike the risk checks, the portfolio view does not divide by 100: for a
      priced position of non-negative value the risk value is the holding's
      value divided by 100, rounded down. */
  lemma ScaleDiffersFromRisk(p: Position, prices: map<nat, int>)
    requires p.assetId in prices && p.amount * prices[p.assetId] >= 0
    ensures PositionValue(p, prices) == HoldingOf(p, prices).currentValue / 100
  {
    QuotNonNegative(p.amount * prices[p.assetId], 100);
  }

  lemma HoldingsStep(ps: seq<Position>, i: nat, prices: map<nat, int>)
    requires i < |ps|
    ensures Holdings(ps[..i + 1], prices) == Holdings(ps[..i], prices) + [HoldingOf(ps[i], prices)]
  {
    assert ps[..i + 1][..i] == ps[..i];
  }

  /** The loop body of `get_portfolio` for one position: look up the price, falling
      back on the entry price, and value the holding at it. */
  method ValueHolding(store: RiskStore, position: Position) returns (holding: AssetHolding)
    ensures holding == HoldingOf(position, store.prices)
  {
    var price := position.entryPrice;
    var stored := store.GetAssetPrice(position.assetId);
    if stored.Some? {
      price := stored.value;
    }
    var currentValue := position.amount * price;
    var unrealizedPnl := (price - position.entryPrice) * position.amount;
    holding := AssetHolding(position.assetId, position.amount, currentValue, position.entryPrice, unrealizedPnl);
  }

  lemma TotalsStep(hs: seq<AssetHolding>, h: AssetHolding)
    ensures TotalValue(hs + [h]) == TotalValue(hs) + h.currentValue
    ensures TotalPnl(hs + [h]) == TotalPnl(hs) + h.unrealizedPnl
  {
    assert (hs + [h])[..|hs|] == hs;
  }

  /** `get_portfolio`: the user's positions, in asset order, as holdings with totals. */
  method GetPortfolio(store: RiskStore, user: Address) returns (view: PortfolioView)
    ensures view.assets == Holdings(store.GetUserPositions(user), store.prices)
    ensures view.totalValue == TotalValue(view.assets) && view.totalPnl == TotalPnl(view.assets)
  {
    var ps := store.GetUserPositions(user);
    var assets := [];
    var totalValue := 0;
    var totalPnl := 0;
    var i := 0;
    while i < |ps|
      invariant 0 <= i <= |ps|
      invariant assets == Holdings(ps[..i], store.prices)
      invariant totalValue == TotalValue(assets) && totalPnl == TotalPnl(assets)
    {
      var holding := ValueHolding(store, ps[i]);
      totalValue := totalValue + holding.currentValue;
      totalPnl := totalPnl + holding.unrealizedPnl;
      HoldingsStep(ps, i, store.prices);
      TotalsStep(assets, holding);
      assets := assets + [holding];
      i := i + 1;
    }
    assert ps[..i] == ps;
    view := PortfolioView(assets, totalValue, totalPnl);
  }
}
