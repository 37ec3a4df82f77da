// The auto-trade history: every executed trade of a user is stored under the
// user and a per-user index that counts from 0, and read back newest first a
// page at a time.

module TradeHistory {
  import opened Base

  /** The page size used when none is asked for. */
  const DEFAULT_HISTORY_LIMIT: nat := 20

  /** The largest page. */
  const MAX_HISTORY_LIMIT: nat := 100

  datatype HistoryTradeStatus = Pending | Executed | Failed | Cancelled

  datatype HistoryTrade = HistoryTrade(
    id: nat,
    signalId: nat,
    baseAsset: nat,
    amount: int,
    price: int,
    fee: int,
    timestamp: int,
    status: HistoryTradeStatus)

  /** The page size actually used: 0 means the default, and larger requests are capped. */
  function ClampLimit(limit: nat): (r: nat)
    ensures 1 <= r <= MAX_HISTORY_LIMIT
    ensures limit == 0 ==> r == DEFAULT_HISTORY_LIMIT
    ensures 0 < limit <= MAX_HISTORY_LIMIT ==> r == limit
    ensures limit > MAX_HISTORY_LIMIT ==> r == MAX_HISTORY_LIMIT
  {
    if limit == 0 then DEFAULT_HISTORY_LIMIT
    else if limit > MAX_HISTORY_LIMIT then MAX_HISTORY_LIMIT
    else limit
  }

  /** The part of `s` after its first `offset` entries, at most `limit` long. */
  function Page<T>(s: seq<T>, offset: nat, limit: nat): (r: seq<T>)
    ensures |r| == Min(limit, |s| - Min(offset, |s|))
    ensures forall i :: 0 <= i < |r| ==> r[i] == s[offset + i]
  {
    s[Min(offset, |s|)..Min(offset + limit, |s|)]
  }

  class HistoryStore {
    /** `UserTradeCount(user)`; 0 for a user without trades. */
    var counts: map<Address, nat>
    /** `Trade(user, index)`. */
    var trades: map<(Address, nat), HistoryTrade>

    constructor ()
      ensures Valid()
      ensures counts == map[] && trades == map[]
    {
      counts := map[];
      trades := map[];
    }

    /** `get_user_trade_count`. */
    function Count(user: Address): nat
      reads this
    {
      if user in counts then counts[user] else 0
    }

    /** A user's trades are stored exactly under the indices below their count,
        each carrying its own index as id. */
    ghost predicate Valid()
      reads this
    {
      && (forall user: Address, i: nat :: (user, i) in trades <==> i < Count(user))
      && (forall key :: key in trades ==> trades[key].id == key.1)
    }

    /** The user's trades from the newest back to the oldest. */
    function Newest(user: Address, n: nat): (r: seq<HistoryTrade>)
      requires forall i: nat :: i < n ==> (user, i) in trades
      reads this
      ensures |r| == n
      ensures forall k :: 0 <= k < n ==> r[k] == trades[(user, n - 1 - k)]
    {
      if n == 0 then [] else [trades[(user, n - 1)]] + Newest(user, n - 1)
    }

    /** `record_trade` at ledger time `now`: the trade is stored under the next
        index, which is returned. */
    method RecordTrade(user: Address, signalId: nat, baseAsset: nat, amount: int, price: int, fee: int,
                       status: HistoryTradeStatus, now: int) returns (id: nat)
      requires Valid()
      modifies this
      ensures Valid()
      ensures id == old(Count(user)) && Count(user) == id + 1
      ensures forall u :: u != user ==> Count(u) == old(Count(u))
      ensures trades == old(trades)[(user, id) := HistoryTrade(id, signalId, baseAsset, amount, price, fee, now, status)]
    {
      var count := Count(user);
      id := count;
      var trade := HistoryTrade(id, signalId, baseAsset, amount, price, fee, now, status);
      trades := trades[(user, id) := trade];
      counts := counts[user := count + 1];
    }

    /** `get_trade_history`: the page of the newest-first list after `offset`
        trades, of the clamped size. */
    method GetTradeHistory(user: Address, offset: nat, limit: nat) returns (result: seq<HistoryTrade>)
      requires Valid()
      ensures Count(user) == 0 ==> result == []
      ensures result == Page(Newest(user, Count(user)), offset, ClampLimit(limit))
      ensures |result| <= ClampLimit(limit)
      ensures forall k :: 0 <= k < |result| ==> result[k].id == Count(user) - 1 - offset - k
    {
      var count := Count(user);
      if count == 0 {
        return [];
      }
      var limit := ClampLimit(limit);
      ghost var all := Newest(user, count);
      result := [];
      var taken := 0;
      var skipped := 0;
      var k := 0;
      while k < count
        invariant 0 <= k <= count
        invariant skipped == Min(k, offset) && taken == |result|
        invariant k - skipped <= limit && result == all[skipped..k]
      {
        var i := count - 1 - k;
        if skipped < offset {
          skipped := skipped + 1;
          k := k + 1;
          continue;
        }
        if taken >= limit {
          break;
        }
        var trade := trades[(user, i)];
        result := result + [trade];
        taken := taken + 1;
        k := k + 1;
      }
    }
  }

  /** Three recorded trades read back newest first: the first page of two holds
      the trades with ids 2 and 1, and skipping two leaves the one with id 0. */
  method HistoryExample(user: Address) returns (firstPage: seq<HistoryTrade>, secondPage: seq<HistoryTrade>)
    ensures |firstPage| == 2 && firstPage[0].id == 2 && firstPage[1].id == 1
    ensures |secondPage| == 1 && secondPage[0].id == 0
  {
    var store := new HistoryStore();
    var a := store.RecordTrade(user, 10, 1, 100, 5, 1, Executed, 1000);
    var b := store.RecordTrade(user, 11, 1, 200, 5, 1, Executed, 1001);
    var c := store.RecordTrade(user, 12, 1, 300, 5, 1, Executed, 1002);
    firstPage := store.GetTradeHistory(user, 0, 2);
    secondPage := store.GetTradeHistory(user, 2, 2);
  }
}
