// The basic `stellar-swipe` signal contract: providers publish a buy or sell
// signal on an asset pair with an expiry at most thirty days ahead; each signal
// gets the next id of an instance counter and starts Active, and a provider's
// statistics record is created on their first signal.
//
// The contract panics on every failure; each panic is an error constructor here.

module Swipe {
  import opened Base

  const MAX_EXPIRY_SECONDS: int := 30 * 24 * 60 * 60

  /** The byte '/'. */
  const SLASH: Byte := 47

  datatype SignalStatus = Pending | Active | Executed | Expired

  datatype SignalAction = Buy | Sell

  datatype Signal = Signal(
    id: nat,
    provider: Address,
    assetPair: seq<Byte>,
    action: SignalAction,
    price: int,
    rationale: seq<Byte>,
    timestamp: int,
    expiry: int,
    status: SignalStatus)

  /** `SignalStats`; its `Default` is all zeros. */
  datatype SignalStats = SignalStats(totalCopies: nat, successRate: nat, avgReturn: int, totalVolume: int)

  const DEFAULT_STATS: SignalStats := SignalStats(0, 0, 0, 0)

  datatype CreateError =
    | InvalidAssetPair     // "invalid asset pair"
    | ExpiryNotInFuture    // "expiry must be in the future"
    | ExpiryTooFar         // "expiry exceeds max 30 days"
    | IdOverflow           // "signal id overflow"

  /** The checks `create_signal` makes before it takes an id, in their order. */
  function CreateCheck(assetPair: seq<Byte>, expiry: int, now: int): (r: Result<(), CreateError>)
    ensures SLASH !in assetPair ==> r == Err(InvalidAssetPair)
    ensures SLASH in assetPair && expiry <= now ==> r == Err(ExpiryNotInFuture)
    ensures SLASH in assetPair && now < expiry && expiry > now + MAX_EXPIRY_SECONDS ==> r == Err(ExpiryTooFar)
    ensures r.Ok? <==> SLASH in assetPair && now < expiry <= now + MAX_EXPIRY_SECONDS
  {
    if SLASH !in assetPair then Err(InvalidAssetPair)
    else if expiry <= now then Err(ExpiryNotInFuture)
    else if expiry > now + MAX_EXPIRY_SECONDS then Err(ExpiryTooFar)
    else Ok(())
  }

  /** The loop of `validate_asset_pair`: whether the pair holds a '/'. */
  method HasSlash(bytes: seq<Byte>) returns (found: bool)
    ensures found <==> SLASH in bytes
  {
    found := false;
    var i := 0;
    while i < |bytes|
      invariant 0 <= i <= |bytes|
      invariant !found ==> SLASH !in bytes[..i]
      invariant found ==> SLASH in bytes
    {
      if bytes[i] == SLASH {
        found := true;
        break;
      }
      assert bytes[..i + 1] == bytes[..i] + [bytes[i]];
      i := i + 1;
    }
    if !found {
      assert bytes[..i] == bytes;
    }
  }

  /** A signal's validity window: a signal on a pair with a '/' and an expiry up
      to thirty days ahead passes; one day more does not, nor does an expiry of
      now, nor a pair without a '/'. */
  lemma CreateCheckExample()
    ensures CreateCheck(Ascii("XLM/USDC"), 1000 + MAX_EXPIRY_SECONDS, 1000) == Ok(())
    ensures CreateCheck(Ascii("XLM/USDC"), 1000 + MAX_EXPIRY_SECONDS + 1, 1000) == Err(ExpiryTooFar)
    ensures CreateCheck(Ascii("XLM/USDC"), 1000, 1000) == Err(ExpiryNotInFuture)
    ensures CreateCheck(Ascii("XLMUSDC"), 1000 + 60, 1000) == Err(InvalidAssetPair)
  {
    var good := Ascii("XLM/USDC");
    assert good[3] == SLASH;
    var bad := Ascii("XLMUSDC");
    assert forall i :: 0 <= i < |bad| ==> bad[i] != SLASH;
  }

  /** The contract's instance storage. */
  class SignalRegistry {
    /** `SignalCounter`; 0 before the first signal. */
    var counter: nat
    var signals: map<nat, Signal>
    var providerStats: map<Address, SignalStats>

    constructor ()
      ensures Valid()
      ensures counter == 0 && signals == map[] && providerStats == map[]
    {
      counter := 0;
      signals := map[];
      providerStats := map[];
    }

    /** Every stored signal sits under its own id, and ids run from 1 to the counter. */
    ghost predicate Valid()
      reads this
    {
      && counter <= U64_MAX
      && forall id :: id in signals ==> 1 <= id <= counter && signals[id].id == id
    }

    /** `get_signal`. */
    function GetSignal(signalId: nat): (r: Option<Signal>)
      reads this
      ensures r.Some? <==> signalId in signals
      ensures r.Some? ==> r.value == signals[signalId]
    {
      if signalId in signals then Some(signals[signalId]) else None
    }

    /** `get_provider_stats`. */
    function GetProviderStats(provider: Address): (r: Option<SignalStats>)
      reads this
      ensures r.Some? <==> provider in providerStats
      ensures r.Some? ==> r.value == providerStats[provider]
    {
      if provider in providerStats then Some(providerStats[provider]) else None
    }

    /** `next_signal_id`: the counter plus one, stored back; u64 overflow panics. */
    method NextSignalId() returns (r: Result<nat, CreateError>)
      modifies this
      ensures old(counter) >= U64_MAX ==> r == Err(IdOverflow) && counter == old(counter)
      ensures old(counter) < U64_MAX ==> r == Ok(old(counter) + 1) && counter == old(counter) + 1
      ensures signals == old(signals) && providerStats == old(providerStats)
    {
      if counter >= U64_MAX {
        return Err(IdOverflow);
      }
      var next := counter + 1;
      counter := next;
      r := Ok(next);
    }

    /** `create_signal` at ledger time `now`: the new signal's id. The id was
        not in use, the signal is stored Active under it, and the provider's
        statistics are created only on their first signal. */
    method CreateSignal(provider: Address, assetPair: seq<Byte>, action: SignalAction, price: int,
                        rationale: seq<Byte>, expiry: int, now: int)
      returns (r: Result<nat, CreateError>)
      requires Valid()
      modifies this
      ensures Valid()
      ensures CreateCheck(assetPair, expiry, now).Err? ==>
                r == Err(CreateCheck(assetPair, expiry, now).error) && counter == old(counter)
                && signals == old(signals) && providerStats == old(providerStats)
      ensures CreateCheck(assetPair, expiry, now).Ok? && old(counter) >= U64_MAX ==>
                r == Err(IdOverflow) && counter == old(counter)
                && signals == old(signals) && providerStats == old(providerStats)
      ensures r.Ok? ==>
                && CreateCheck(assetPair, expiry, now).Ok?
                && r.value == old(counter) + 1 == counter
                && r.value !in old(signals)
                && signals == old(signals)[r.value := Signal(r.value, provider, assetPair, action, price, rationale, now, expiry, Active)]
                && providerStats == (if provider in old(providerStats) then old(providerStats)
                                     else old(providerStats)[provider := DEFAULT_STATS])
      ensures CreateCheck(assetPair, expiry, now).Ok? && old(counter) < U64_MAX ==> r.Ok?
    {
      var hasSlash := HasSlash(assetPair);
      if !hasSlash {
        return Err(InvalidAssetPair);
      }
      if expiry <= now {
        return Err(ExpiryNotInFuture);
      }
      if expiry > now + MAX_EXPIRY_SECONDS {
        return Err(ExpiryTooFar);
      }
      var next := NextSignalId();
      if next.Err? {
        return Err(next.error);
      }
      var id := next.value;
      var signal := Signal(id, provider, assetPair, action, price, rationale, now, expiry, Active);
      signals := signals[id := signal];
      if provider !in providerStats {
        providerStats := providerStats[provider := DEFAULT_STATS];
      }
      r := Ok(id);
    }
  }

  /** Two signals created one after the other get consecutive ids, the first
      of them 1, and the second does not overwrite the first. */
  method CreateTwo(provider: Address, pair: seq<Byte>, expiry: int, now: int)
    returns (first: Result<nat, CreateError>, second: Result<nat, CreateError>)
    requires CreateCheck(pair, expiry, now).Ok?
    ensures first == Ok(1) && second == Ok(2)
  {
    var registry := new SignalRegistry();
    first := registry.CreateSignal(provider, pair, Buy, 100, [], expiry, now);
    second := registry.CreateSignal(provider, pair, Sell, 90, [], expiry, now);
    assert registry.signals[1].action == Buy;
  }
}
