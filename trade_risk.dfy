// The auto-trade risk checks: each user's risk configuration, open positions
// keyed by asset, and trade records, and the three checks a trade must pass —
// a daily trade count, a position share of the portfolio for buys, and a
// stop-loss flag for sells.
//
// A user's positions are a Soroban map from asset id to position, which
// iterates in ascending key order; here they are a sequence ordered by asset id.

module TradeRisk {
  import opened Base
  import opened TradeTypes

  const SECONDS_PER_DAY: int := 86400

  datatype RiskConfig = RiskConfig(maxPositionPct: nat, dailyTradeLimit: nat, stopLossPct: nat)

  /** 20% of the portfolio per position, 10 trades a day, a 15% stop-loss. */
  const DEFAULT_CONFIG: RiskConfig := RiskConfig(20, 10, 15)

  datatype Position = Position(assetId: nat, amount: int, entryPrice: int, timestamp: int)

  datatype TradeRecord = TradeRecord(timestamp: int, signalId: nat, amount: int)

  /** Strictly ascending asset ids: the key order of a position map. */
  predicate Ordered(ps: seq<Position>)
  {
    forall i, j :: 0 <= i < j < |ps| ==> ps[i].assetId < ps[j].assetId
  }

  /** The position held in `asset`, if any. */
  function Lookup(ps: seq<Position>, asset: nat): (r: Option<Position>)
    ensures r.Some? ==> r.value in ps && r.value.assetId == asset
    ensures r.None? ==> forall i :: 0 <= i < |ps| ==> ps[i].assetId != asset
  {
    if ps == [] then None
    else if ps[0].assetId == asset then Some(ps[0])
    else Lookup(ps[1..], asset)
  }

  /** The map's `remove(asset)`. */
  function Remove(ps: seq<Position>, asset: nat): (r: seq<Position>)
    ensures forall x :: x in r ==> x in ps
    ensures Ordered(ps) ==> Ordered(r)
    ensures forall a :: Lookup(r, a) == if a == asset then None else Lookup(ps, a)
  {
    if ps == [] then []
    else
      var rest := Remove(ps[1..], asset);
      if ps[0].assetId == asset then rest
      else
        assert ([ps[0]] + rest)[1..] == rest;
        assert Ordered(ps) ==> forall k :: 0 <= k < |rest| ==> ps[0].assetId < rest[k].assetId by {
          if Ordered(ps) {
            forall k | 0 <= k < |rest| ensures ps[0].assetId < rest[k].assetId {
              assert rest[k] in ps[1..];
            }
          }
        }
        [ps[0]] + rest
  }

  /** The map's `set(pos.assetId, pos)`. */
  function Put(ps: seq<Position>, pos: Position): (r: seq<Position>)
    requires Ordered(ps)
    ensures forall x :: x in r ==> x in ps || x == pos
    ensures Ordered(r)
    ensures forall a :: Lookup(r, a) == if a == pos.assetId then Some(pos) else Lookup(ps, a)
  {
    if ps == [] then [pos]
    else if ps[0].assetId < pos.assetId then
      var rest := Put(ps[1..], pos);
      assert ([ps[0]] + rest)[1..] == rest;
      assert forall k :: 0 <= k < |rest| ==> ps[0].assetId < rest[k].assetId by {
        forall k | 0 <= k < |rest| ensures ps[0].assetId < rest[k].assetId {
          assert rest[k] in ps[1..] || rest[k] == pos;
        }
      }
      [ps[0]] + rest
    else if ps[0].assetId == pos.assetId then
      assert ([pos] + ps[1..])[1..] == ps[1..];
      [pos] + ps[1..]
    else
      assert ([pos] + ps)[1..] == ps;
      [pos] + ps
  }

  /** `update_position` at time `now`: amount 0 closes the position, anything
      else replaces it; the other assets keep theirs. */
  function UpdatedPositions(ps: seq<Position>, asset: nat, amount: int, price: int, now: int): (r: seq<Position>)
    requires Ordered(ps)
    ensures Ordered(r)
    ensures amount == 0 ==> Lookup(r, asset) == None
    ensures amount != 0 ==> Lookup(r, asset) == Some(Position(asset, amount, price, now))
    ensures forall a :: a != asset ==> Lookup(r, a) == Lookup(ps, a)
  {
    if amount == 0 then Remove(ps, asset) else Put(ps, Position(asset, amount, price, now))
  }

  /** The number of records made at or after `dayAgo`. */
  function RecentCount(history: seq<TradeRecord>, dayAgo: int): (n: nat)
    ensures n <= |history|
  {
    if history == [] then 0
    else RecentCount(history[..|history| - 1], dayAgo) + if history[|history| - 1].timestamp >= dayAgo then 1 else 0
  }

  /** When every record is recent all of them count; a new recent record adds one
      and an old one adds nothing. */
  lemma {:induction false} RecentCountAll(history: seq<TradeRecord>, dayAgo: int)
    requires forall i :: 0 <= i < |history| ==> history[i].timestamp >= dayAgo
    ensures RecentCount(history, dayAgo) == |history|
  {
    if history != [] {
      RecentCountAll(history[..|history| - 1], dayAgo);
    }
  }

  lemma RecentCountAppend(history: seq<TradeRecord>, record: TradeRecord, dayAgo: int)
    ensures RecentCount(history + [record], dayAgo) ==
              RecentCount(history, dayAgo) + if record.timestamp >= dayAgo then 1 else 0
  {
    assert (history + [record])[..|history|] == history;
  }

  /** A position's value at its stored price, in the price's hundredths; an
      asset without a price adds nothing. */
  function PositionValue(p: Position, prices: map<nat, int>): int
  {
    if p.assetId in prices then Quot(p.amount * prices[p.assetId], 100) else 0
  }

  /** `calculate_portfolio_value`: the sum of the position values. */
  function PortfolioValue(ps: seq<Position>, prices: map<nat, int>): int
  {
    if ps == [] then 0 else PortfolioValue(ps[..|ps| - 1], prices) + PositionValue(ps[|ps| - 1], prices)
  }

  /** The portfolio's value splits over any division of its positions, so the
      order in which they are summed does not matter. */
  lemma {:induction false} PortfolioValueSplit(a: seq<Position>, b: seq<Position>, prices: map<nat, int>)
    ensures PortfolioValue(a + b, prices) == PortfolioValue(a, prices) + PortfolioValue(b, prices)
  {
    if b != [] {
      PortfolioValueSplit(a, b[..|b| - 1], prices);
      assert (a + b)[..|a + b| - 1] == a + b[..|b| - 1];
    } else {
      assert a + b == a;
    }
  }

  /** Without any stored price the portfolio is worth 0. */
  lemma {:induction false} PortfolioValueUnpriced(ps: seq<Position>, prices: map<nat, int>)
    requires forall i :: 0 <= i < |ps| ==> ps[i].assetId !in prices
    ensures PortfolioValue(ps, prices) == 0
  {
    if ps != [] {
      PortfolioValueUnpriced(ps[..|ps| - 1], prices);
    }
  }

  /** The position the trade would leave in `asset`, valued at the trade price. */
  function NewPositionValue(ps: seq<Position>, asset: nat, amount: int, price: int): int
  {
    var current := if Lookup(ps, asset).Some? then Lookup(ps, asset).value.amount else 0;
    Quot((current + amount) * price, 100)
  }

  /** The portfolio value after the trade. */
  function NewPortfolioValue(ps: seq<Position>, prices: map<nat, int>, amount: int, price: int): int
  {
    PortfolioValue(ps, prices) + Quot(amount * price, 100)
  }

  /** `check_position_limit`. An empty-valued portfolio accepts any trade; a trade
      that would bring the portfolio to 0 divides by zero; otherwise the
      truncated percentage of the new position in the new portfolio must not
      exceed the configured maximum. */
  function PositionLimit(ps: seq<Position>, prices: map<nat, int>, asset: nat, amount: int, price: int,
                         config: RiskConfig): (r: Result<(), AutoTradeError>)
    ensures PortfolioValue(ps, prices) == 0 ==> r == Ok(())
    ensures r.Err? ==> r.error in {PositionLimitExceeded, DivisionByZero}
    ensures r == Err(DivisionByZero) <==> PortfolioValue(ps, prices) != 0 && NewPortfolioValue(ps, prices, amount, price) == 0
    ensures PortfolioValue(ps, prices) != 0 && NewPortfolioValue(ps, prices, amount, price) > 0 ==>
              (r == Ok(()) <==>
                 NewPositionValue(ps, asset, amount, price) * 100 < (config.maxPositionPct + 1) * NewPortfolioValue(ps, prices, amount, price))
  {
    var value := PortfolioValue(ps, prices);
    if value == 0 then Ok(())
    else
      var newPortfolioValue := NewPortfolioValue(ps, prices, amount, price);
      if newPortfolioValue == 0 then Err(DivisionByZero)
      else
        var positionPct := Quot(NewPositionValue(ps, asset, amount, price) * 100, newPortfolioValue);
        var r := if positionPct > config.maxPositionPct then Err(PositionLimitExceeded) else Ok(());
        if newPortfolioValue > 0 then
          QuotExceeds(NewPositionValue(ps, asset, amount, price) * 100, newPortfolioValue, config.maxPositionPct);
          r
        else r
  }

  /** The price at which the stop-loss fires for a position bought at `entry`. */
  function StopLossPrice(entry: int, stopLossPct: nat): int
  {
    Quot(entry * (100 - stopLossPct), 100)
  }

  /** `check_stop_loss`: only a held position can trigger. */
  function StopLossTriggered(ps: seq<Position>, asset: nat, currentPrice: int, config: RiskConfig): (b: bool)
    ensures b ==> Lookup(ps, asset).Some?
    ensures Lookup(ps, asset).Some? ==> (b <==> currentPrice <= StopLossPrice(Lookup(ps, asset).value.entryPrice, config.stopLossPct))
  {
    match Lookup(ps, asset)
    case None => false
    case Some(p) => currentPrice <= StopLossPrice(p.entryPrice, config.stopLossPct)
  }

  /** For a non-negative entry price and a stop-loss of at most 100%, the
      stop-loss fires exactly when the price has fallen by at least the
      configured percentage of the entry price. */
  lemma StopLossMeaning(ps: seq<Position>, asset: nat, currentPrice: int, config: RiskConfig)
    requires Lookup(ps, asset).Some? && Lookup(ps, asset).value.entryPrice >= 0
    requires config.stopLossPct <= 100
    ensures var entry := Lookup(ps, asset).value.entryPrice;
            StopLossTriggered(ps, asset, currentPrice, config) <==> currentPrice * 100 <= entry * (100 - config.stopLossPct)
  {
    var entry := Lookup(ps, asset).value.entryPrice;
    assert entry * (100 - config.stopLossPct) >= 0;
    AtMostQuot(currentPrice, entry * (100 - config.stopLossPct), 100);
  }

  /** `validate_trade`: the daily limit always applies; a buy must also pass the
      position limit, and a sell reports whether its stop-loss fired. */
  function Validation(config: RiskConfig, history: seq<TradeRecord>, ps: seq<Position>, prices: map<nat, int>,
                      asset: nat, amount: int, price: int, isSell: bool, now: int): (r: Result<bool, AutoTradeError>)
    ensures RecentCount(history, SatSub(now, SECONDS_PER_DAY)) >= config.dailyTradeLimit ==> r == Err(DailyTradeLimitExceeded)
    ensures RecentCount(history, SatSub(now, SECONDS_PER_DAY)) < config.dailyTradeLimit && !isSell ==>
              match PositionLimit(ps, prices, asset, amount, price, config)
              case Err(e) => r == Err(e)
              case Ok(_) => r == Ok(false)
    ensures RecentCount(history, SatSub(now, SECONDS_PER_DAY)) < config.dailyTradeLimit && isSell ==>
              r == Ok(StopLossTriggered(ps, asset, price, config))
  {
    if RecentCount(history, SatSub(now, SECONDS_PER_DAY)) >= config.dailyTradeLimit then Err(DailyTradeLimitExceeded)
    else if !isSell then
      match PositionLimit(ps, prices, asset, amount, price, config)
      case Err(e) => Err(e)
      case Ok(_) => Ok(false)
    else Ok(StopLossTriggered(ps, asset, price, config))
  }

  /** The risk storage of the contract. */
  class RiskStore {
    var configs: map<Address, RiskConfig>
    var positions: map<Address, seq<Position>>
    var histories: map<Address, seq<TradeRecord>>
    /** The temporary `AssetPrice(asset)` entries. */
    var prices: map<nat, int>

    constructor ()
      ensures Valid()
      ensures configs == map[] && positions == map[] && histories == map[] && prices == map[]
    {
      configs := map[];
      positions := map[];
      histories := map[];
      prices := map[];
    }

    ghost predicate Valid()
      reads this
    {
      forall u :: u in positions ==> Ordered(positions[u])
    }

    /** `get_risk_config`: the default for a user who never set one. */
    function GetRiskConfig(user: Address): (c: RiskConfig)
      reads this
      ensures user !in configs ==> c == DEFAULT_CONFIG
      ensures user in configs ==> c == configs[user]
    {
      if user in configs then configs[user] else DEFAULT_CONFIG
    }

    /** `get_user_positions`: empty for a user who never traded. */
    function GetUserPositions(user: Address): (ps: seq<Position>)
      reads this
      ensures Valid() ==> Ordered(ps)
    {
      if user in positions then positions[user] else []
    }

    /** `get_trade_history`: empty for a user who never traded. */
    function GetTradeHistory(user: Address): seq<TradeRecord>
      reads this
    {
      if user in histories then histories[user] else []
    }

    /** `get_asset_price`. */
    function GetAssetPrice(asset: nat): (r: Option<int>)
      reads this
      ensures r.Some? <==> asset in prices
      ensures r.Some? ==> r.value == prices[asset]
    {
      if asset in prices then Some(prices[asset]) else None
    }

    /** `set_risk_config`. */
    method SetRiskConfig(user: Address, config: RiskConfig)
      modifies this
      ensures configs == old(configs)[user := config]
      ensures positions == old(positions) && histories == old(histories) && prices == old(prices)
    {
      configs := configs[user := config];
    }

    /** `set_asset_price`. */
    method SetAssetPrice(asset: nat, price: int)
      modifies this
      ensures prices == old(prices)[asset := price]
      ensures configs == old(configs) && positions == old(positions) && histories == old(histories)
    {
      prices := prices[asset := price];
    }

    /** `update_position` at ledger time `now`. */
    method UpdatePosition(user: Address, asset: nat, amount: int, price: int, now: int)
      requires Valid()
      modifies this
      ensures Valid()
      ensures positions == old(positions)[user := UpdatedPositions(old(GetUserPositions(user)), asset, amount, price, now)]
      ensures configs == old(configs) && histories == old(histories) && prices == old(prices)
    {
      var ps := GetUserPositions(user);
      ps := UpdatedPositions(ps, asset, amount, price, now);
      positions := positions[user := ps];
    }

    /** `add_trade_record` at ledger time `now`. */
    method AddTradeRecord(user: Address, signalId: nat, amount: int, now: int)
      modifies this
      ensures histories == old(histories)[user := old(GetTradeHistory(user)) + [TradeRecord(now, signalId, amount)]]
      ensures configs == old(configs) && positions == old(positions) && prices == old(prices)
    {
      var history := GetTradeHistory(user);
      history := history + [TradeRecord(now, signalId, amount)];
      histories := histories[user := history];
    }

    /** `check_daily_trade_limit` at ledger time `now`: the records of the last
        24 hours (from time 0 before the first day) must number fewer than the
        limit. */
    method CheckDailyTradeLimit(user: Address, config: RiskConfig, now: int) returns (r: Result<(), AutoTradeError>)
      ensures r.Err? <==> RecentCount(GetTradeHistory(user), SatSub(now, SECONDS_PER_DAY)) >= config.dailyTradeLimit
      ensures r.Err? ==> r.error == DailyTradeLimitExceeded
    {
      var history := GetTradeHistory(user);
      var dayAgo := SatSub(now, SECONDS_PER_DAY);
      var recentTrades := 0;
      var i := 0;
      while i < |history|
        invariant 0 <= i <= |history|
        invariant recentTrades == RecentCount(history[..i], dayAgo)
      {
        assert history[..i + 1][..i] == history[..i];
        if history[i].timestamp >= dayAgo {
          recentTrades := recentTrades + 1;
        }
        i := i + 1;
      }
      assert history[..i] == history;
      if recentTrades >= config.dailyTradeLimit {
        return Err(DailyTradeLimitExceeded);
      }
      r := Ok(());
    }

    /** `calculate_portfolio_value`. */
    method CalculatePortfolioValue(user: Address) returns (total: int)
      ensures total == PortfolioValue(GetUserPositions(user), prices)
    {
      var ps := GetUserPositions(user);
      total := 0;
      var i := 0;
      while i < |ps|
        invariant 0 <= i <= |ps|
        invariant total == PortfolioValue(ps[..i], prices)
      {
        assert ps[..i + 1][..i] == ps[..i];
        var price := GetAssetPrice(ps[i].assetId);
        if price.Some? {
          total := total + Quot(ps[i].amount * price.value, 100);
        }
        i := i + 1;
      }
      assert ps[..i] == ps;
    }

    /** `check_position_limit` for a trade of `amount` at `price`. */
    method CheckPositionLimit(user: Address, asset: nat, amount: int, price: int, config: RiskConfig)
      returns (r: Result<(), AutoTradeError>)
      ensures r == PositionLimit(GetUserPositions(user), prices, asset, amount, price, config)
    {
      var value := CalculatePortfolioValue(user);
      if value == 0 {
        return Ok(());
      }
      var ps := GetUserPositions(user);
      var current := 0;
      var position := Lookup(ps, asset);
      if position.Some? {
        current := position.value.amount;
      }
      var newPositionValue := Quot((current + amount) * price, 100);
      var tradeValue := Quot(amount * price, 100);
      var newPortfolioValue := value + tradeValue;
      if newPortfolioValue == 0 {
        return Err(DivisionByZero);
      }
      var positionPct := Quot(newPositionValue * 100, newPortfolioValue);
      if positionPct > config.maxPositionPct {
        return Err(PositionLimitExceeded);
      }
      r := Ok(());
    }

    /** `validate_trade` at ledger time `now` under the user's configuration. */
    method ValidateTrade(user: Address, asset: nat, amount: int, price: int, isSell: bool, now: int)
      returns (r: Result<bool, AutoTradeError>)
      ensures r == Validation(GetRiskConfig(user), GetTradeHistory(user), GetUserPositions(user), prices,
                              asset, amount, price, isSell, now)
    {
      var config := GetRiskConfig(user);
      var daily := CheckDailyTradeLimit(user, config, now);
      if daily.Err? {
        return Err(daily.error);
      }
      if !isSell {
        var limit := CheckPositionLimit(user, asset, amount, price, config);
        if limit.Err? {
          return Err(limit.error);
        }
      }
      var stopLoss := if isSell then StopLossTriggered(GetUserPositions(user), asset, price, config) else false;
      r := Ok(stopLoss);
    }
  }

  /** The risk-check tests at ledger time 1000, where the day window starts at 0:
      five recent trades pass the default limit of ten and ten do not. */
  lemma DailyLimitExample(five: seq<TradeRecord>, ten: seq<TradeRecord>)
    requires |five| == 5 && |ten| == 10
    requires forall i :: 0 <= i < 5 ==> five[i].timestamp == 1000
    requires forall i :: 0 <= i < 10 ==> ten[i].timestamp == 1000
    ensures SatSub(1000, SECONDS_PER_DAY) == 0
    ensures RecentCount(five, 0) < DEFAULT_CONFIG.dailyTradeLimit
    ensures RecentCount(ten, 0) >= DEFAULT_CONFIG.dailyTradeLimit
  {
    RecentCountAll(five, 0);
    RecentCountAll(ten, 0);
  }

  /** 1000 units at 100 and 500 units at 200 are worth 2000. */
  lemma PortfolioValueExample()
    ensures PortfolioValue([Position(1, 1000, 100, 1000), Position(2, 500, 200, 1000)], map[1 := 100, 2 := 200]) == 2000
  {
    var ps := [Position(1, 1000, 100, 1000), Position(2, 500, 200, 1000)];
    assert ps[..1] == [ps[0]] && ps[..1][..0] == [];
  }

  /** With 1000 and 4000 units at 100, buying 2000 more of the first asset would
      make it 3000 of 7000, 42% > 20%. */
  lemma PositionLimitExample()
    ensures var ps := [Position(1, 1000, 100, 1000), Position(2, 4000, 100, 1000)];
            PositionLimit(ps, map[1 := 100, 2 := 100], 1, 2000, 100, DEFAULT_CONFIG) == Err(PositionLimitExceeded)
  {
    var ps := [Position(1, 1000, 100, 1000), Position(2, 4000, 100, 1000)];
    var prices := map[1 := 100, 2 := 100];
    assert ps[..1] == [ps[0]] && ps[..1][..0] == [];
    assert PortfolioValue(ps, prices) == 5000;
    assert NewPortfolioValue(ps, prices, 2000, 100) == 7000;
    assert NewPositionValue(ps, 1, 2000, 100) == 3000;
  }

  /** A position entered at 100 with the default 15% stop-loss fires at 80 and
      not at 90. */
  lemma StopLossExample()
    ensures StopLossTriggered([Position(1, 1000, 100, 1000)], 1, 80, DEFAULT_CONFIG)
    ensures !StopLossTriggered([Position(1, 1000, 100, 1000)], 1, 90, DEFAULT_CONFIG)
  {
  }
}
