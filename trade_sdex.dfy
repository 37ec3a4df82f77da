// Order execution against the exchange as the contract simulates it: balances,
// per-signal liquidity and per-signal market prices are read from temporary
// storage, a market order fills up to the available liquidity, and a limit order
// fills completely or not at all.

module Sdex {
  import opened Base
  import opened TradeTypes

  datatype ExecutionResult = ExecutionResult(executedAmount: int, executedPrice: int)

  /** The temporary entries the exchange simulation reads. */
  datatype Market = Market(
    balances: map<Address, int>,    // (user, "balance"), one balance for every asset
    liquidity: map<nat, int>,       // ("liquidity", signal id)
    marketPrices: map<nat, int>)    // ("price", signal id)

  /** The user's stored balance; 0 when none is stored. */
  function BalanceOf(market: Market, user: Address): int
  {
    if user in market.balances then market.balances[user] else 0
  }

  /** `has_sufficient_balance`; the asset plays no part. */
  function HasSufficientBalance(market: Market, user: Address, asset: nat, amount: int): (ok: bool)
    ensures user !in market.balances ==> (ok <==> amount <= 0)
    ensures user in market.balances ==> (ok <==> amount <= market.balances[user])
  {
    BalanceOf(market, user) >= amount
  }

  /** The liquidity a market order on the signal can use: the order's own
      amount when none is stored. */
  function AvailableLiquidity(market: Market, signal: TradeSignal, amount: int): int
  {
    if signal.signalId in market.liquidity then market.liquidity[signal.signalId] else amount
  }

  /** The price a limit order compares with: the signal's own price when none is stored. */
  function MarketPrice(market: Market, signal: TradeSignal): int
  {
    if signal.signalId in market.marketPrices then market.marketPrices[signal.signalId] else signal.price
  }

  /** `execute_market_order` at ledger time `now`: the order fills as much as
      the liquidity allows, at the signal's price. */
  function MarketOrder(market: Market, signal: TradeSignal, amount: int, now: int): (r: Result<ExecutionResult, AutoTradeError>)
    ensures now >= signal.expiry ==> r == Err(SignalExpired)
    ensures now < signal.expiry ==> (r == Err(InsufficientLiquidity) <==> AvailableLiquidity(market, signal, amount) <= 0)
    ensures r.Err? ==> r.error in {SignalExpired, InsufficientLiquidity}
    ensures r.Ok? ==> && r.value.executedPrice == signal.price
                      && (amount > 0 ==> 0 < r.value.executedAmount)
                      && r.value.executedAmount <= amount
                      && r.value.executedAmount <= AvailableLiquidity(market, signal, amount)
                      && (r.value.executedAmount == amount || r.value.executedAmount == AvailableLiquidity(market, signal, amount))
  {
    if now >= signal.expiry then Err(SignalExpired)
    else
      var available := AvailableLiquidity(market, signal, amount);
      if available <= 0 then Err(InsufficientLiquidity)
      else Ok(ExecutionResult(Min(amount, available), signal.price))
  }

  /** `execute_limit_order` at ledger time `now`: the whole amount at the
      signal's price while the market price is not above it, otherwise nothing. */
  function LimitOrder(market: Market, signal: TradeSignal, amount: int, now: int): (r: Result<ExecutionResult, AutoTradeError>)
    ensures now >= signal.expiry <==> r == Err(SignalExpired)
    ensures r.Ok? ==> r.value == ExecutionResult(0, 0) || r.value == ExecutionResult(amount, signal.price)
    ensures r.Ok? && amount != 0 ==> (r.value.executedAmount == 0 <==> MarketPrice(market, signal) > signal.price)
  {
    if now >= signal.expiry then Err(SignalExpired)
    else if MarketPrice(market, signal) > signal.price then Ok(ExecutionResult(0, 0))
    else Ok(ExecutionResult(amount, signal.price))
  }

  /** The exchange tests at ledger time 1000 for a signal at price 100 expiring at
      2000: 400 of 500 available fills completely, 300 of 100 available fills 100,
      a limit order under a market price of 150 fills nothing, and an expired
      signal is refused. */
  lemma OrderExamples()
    ensures var signal := TradeSignal(1, 100, 2000, 1);
            MarketOrder(Market(map[], map[1 := 500], map[]), signal, 400, 1000) == Ok(ExecutionResult(400, 100))
    ensures var signal := TradeSignal(2, 100, 2000, 1);
            MarketOrder(Market(map[], map[2 := 100], map[]), signal, 300, 1000) == Ok(ExecutionResult(100, 100))
    ensures var signal := TradeSignal(3, 100, 2000, 1);
            LimitOrder(Market(map[], map[], map[3 := 150]), signal, 200, 1000) == Ok(ExecutionResult(0, 0))
    ensures var signal := TradeSignal(4, 100, 999, 1);
            MarketOrder(Market(map[], map[], map[]), signal, 100, 1000) == Err(SignalExpired)
  {
  }
}
