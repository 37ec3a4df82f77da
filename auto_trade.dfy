// The auto-trade contract's entry point: a user's order on a stored signal is
// validated, executed against the simulated exchange, and the resulting trade is
// stored under the (user, signal) pair.
//
// The authorisation lookup `execute_trade` calls is not defined in the
// contract's storage module; whether the user is authorised is an input here.

module AutoTrade {
  import opened Base
  import opened TradeTypes
  import opened Sdex

  datatype OrderType = MarketOrderType | LimitOrderType

  datatype TradeStatus = Pending | PartiallyFilled | Filled | Failed

  datatype Trade = Trade(
    signalId: nat,
    user: Address,
    requestedAmount: int,
    executedAmount: int,
    executedPrice: int,
    timestamp: int,
    status: TradeStatus)

  /** The status of an order that filled `executed` of `requested`. */
  function StatusOf(executed: int, requested: int): (s: TradeStatus)
    ensures s == Failed <==> executed == 0
    ensures s == PartiallyFilled <==> executed != 0 && executed < requested
    ensures s == Filled <==> executed != 0 && executed >= requested
  {
    if executed == 0 then Failed
    else if executed < requested then PartiallyFilled
    else Filled
  }

  /** `execute_trade` at ledger time `now`: the trade it records. */
  function Execution(signals: map<nat, TradeSignal>, market: Market, user: Address, signalId: nat,
                     orderType: OrderType, amount: int, authorized: bool, now: int): (r: Result<Trade, AutoTradeError>)
    ensures amount <= 0 ==> r == Err(InvalidAmount)
    ensures amount > 0 && signalId !in signals ==> r == Err(SignalNotFound)
    ensures amount > 0 && signalId in signals && now > signals[signalId].expiry ==> r == Err(SignalExpired)
    ensures amount > 0 && signalId in signals && now <= signals[signalId].expiry && !authorized ==> r == Err(Unauthorized)
    ensures (&& amount > 0 && signalId in signals && now <= signals[signalId].expiry && authorized
             && !HasSufficientBalance(market, user, signals[signalId].baseAsset, amount)) ==> r == Err(InsufficientBalance)
    ensures r.Ok? ==> && amount > 0 && signalId in signals && authorized && now < signals[signalId].expiry
                      && HasSufficientBalance(market, user, signals[signalId].baseAsset, amount)
    ensures r.Ok? ==> && r.value.signalId == signalId && r.value.user == user
                      && r.value.requestedAmount == amount && r.value.timestamp == now
                      && 0 <= r.value.executedAmount <= amount
                      && r.value.status == StatusOf(r.value.executedAmount, amount)
  {
    if amount <= 0 then Err(InvalidAmount)
    else if signalId !in signals then Err(SignalNotFound)
    else
      var signal := signals[signalId];
      if now > signal.expiry then Err(SignalExpired)
      else if !authorized then Err(Unauthorized)
      else if !HasSufficientBalance(market, user, signal.baseAsset, amount) then Err(InsufficientBalance)
      else
        var execution := match orderType
          case MarketOrderType => MarketOrder(market, signal, amount, now)
          case LimitOrderType => LimitOrder(market, signal, amount, now);
        match execution
        case Err(e) => Err(e)
        case Ok(x) =>
          Ok(Trade(signalId, user, amount, x.executedAmount, x.executedPrice, now, StatusOf(x.executedAmount, amount)))
  }

  /** A market order that passes the checks never fails outright: it records a
      fill at the signal's price, partial when the liquidity is short. A limit
      order records either a full fill at the signal's price or a failed trade
      with nothing executed. */
  lemma ExecutionMeaning(signals: map<nat, TradeSignal>, market: Market, user: Address, signalId: nat,
                         orderType: OrderType, amount: int, authorized: bool, now: int)
    requires Execution(signals, market, user, signalId, orderType, amount, authorized, now).Ok?
    ensures var t := Execution(signals, market, user, signalId, orderType, amount, authorized, now).value;
            var signal := signals[signalId];
            && (orderType == MarketOrderType ==>
                  t.executedPrice == signal.price && t.status != Failed
                  && (t.status == PartiallyFilled <==> AvailableLiquidity(market, signal, amount) < amount))
            && (orderType == LimitOrderType ==>
                  (t.status == Filled && t.executedAmount == amount && t.executedPrice == signal.price)
                  || (t.status == Failed && t.executedAmount == 0 && t.executedPrice == 0))
  {
  }

  /** At the expiry instant itself the contract's own expiry check passes, but
      both order kinds then report SignalExpired. */
  lemma ExpiryInstant(signals: map<nat, TradeSignal>, market: Market, user: Address, signalId: nat,
                      orderType: OrderType, amount: int)
    requires amount > 0 && signalId in signals
    requires HasSufficientBalance(market, user, signals[signalId].baseAsset, amount)
    ensures Execution(signals, market, user, signalId, orderType, amount, true, signals[signalId].expiry) == Err(SignalExpired)
  {
  }

  /** The contract's storage. */
  class AutoTradeContract {
    /** `Signal(id)`. */
    var signals: map<nat, TradeSignal>
    /** `Trades(user, signal id)`: the latest trade of the user on the signal. */
    var trades: map<(Address, nat), Trade>
    /** The temporary entries of the exchange simulation. */
    var market: Market

    constructor (market: Market)
      ensures signals == map[] && trades == map[] && this.market == market
    {
      signals := map[];
      trades := map[];
      this.market := market;
    }

    /** `set_signal`. */
    method SetSignal(id: nat, signal: TradeSignal)
      modifies this
      ensures signals == old(signals)[id := signal]
      ensures trades == old(trades) && market == old(market)
    {
      signals := signals[id := signal];
    }

    /** `get_trade`. */
    function GetTrade(user: Address, signalId: nat): (r: Option<Trade>)
      reads this
      ensures r.Some? <==> (user, signalId) in trades
      ensures r.Some? ==> r.value == trades[(user, signalId)]
    {
      if (user, signalId) in trades then Some(trades[(user, signalId)]) else None
    }

    /** `execute_trade` at ledger time `now`; the returned trade replaces any
        earlier one of the user on the signal, and a refused order stores nothing. */
    method ExecuteTrade(user: Address, signalId: nat, orderType: OrderType, amount: int, authorized: bool, now: int)
      returns (r: Result<Trade, AutoTradeError>)
      modifies this
      ensures r == Execution(old(signals), old(market), user, signalId, orderType, amount, authorized, now)
      ensures r.Err? ==> trades == old(trades)
      ensures r.Ok? ==> trades == old(trades)[(user, signalId) := r.value]
      ensures signals == old(signals) && market == old(market)
    {
      if amount <= 0 {
        return Err(InvalidAmount);
      }
      if signalId !in signals {
        return Err(SignalNotFound);
      }
      var signal := signals[signalId];
      if now > signal.expiry {
        return Err(SignalExpired);
      }
      if !authorized {
        return Err(Unauthorized);
      }
      if !HasSufficientBalance(market, user, signal.baseAsset, amount) {
        return Err(InsufficientBalance);
      }
      var execution;
      match orderType {
        case MarketOrderType =>
          execution := MarketOrder(market, signal, amount, now);
        case LimitOrderType =>
          execution := LimitOrder(market, signal, amount, now);
      }
      if execution.Err? {
        return Err(execution.error);
      }
      var status := StatusOf(execution.value.executedAmount, amount);
      var trade := Trade(signalId, user, amount, execution.value.executedAmount, execution.value.executedPrice, now, status);
      trades := trades[(user, signalId) := trade];
      r := Ok(trade);
    }
  }
}
