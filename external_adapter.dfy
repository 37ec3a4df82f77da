// The oracle contract's second aggregation path: a batch of signed external
// observations is reduced to a weight-proportional average. An observation
// whose signature fails slashes its oracle and is skipped; a stale one is
// skipped; one whose oracle has weight 0 is ignored. The Ed25519 check over the
// XDR-encoded message is the parameter `signatureOk`.

module ExternalAdapter {
  import opened Base
  import opened OracleReputation
  import Assets
  import OC = OracleContract

  const MAX_AGE: int := 300

  /** `ExternalPrice`. */
  datatype ExternalPrice = ExternalPrice(
    pair: Assets.AssetPair,
    price: int,
    timestamp: int,
    roundId: nat,
    signature: seq<Byte>,
    oracle: Address)

  /** The loop's state: the running sums, the stats map, and whether `checked_mul` failed. */
  datatype Acc = Acc(sum: int, total: int, stats: map<Address, Stats>, overflow: bool)

  /** One iteration of the loop over the batch. */
  function Step(a: Acc, d: ExternalPrice, now: int, signatureOk: ExternalPrice -> bool): Acc
  {
    if a.overflow then a
    else if !signatureOk(d) then
      a.(stats := a.stats[d.oracle := Slash(StatsOf(a.stats, d.oracle), SignatureFailure, now)])
    else if SatSub(now, d.timestamp) > MAX_AGE then a
    else
      var w := StatsOf(a.stats, d.oracle).weight;
      if w == 0 then a
      else if !InI128(d.price * w) then a.(overflow := true)
      else a.(sum := a.sum + d.price * w, total := a.total + w)
  }

  /** The loop run over a prefix of the batch, starting from the stored stats. */
  function Absorb(prices: seq<ExternalPrice>, m: map<Address, Stats>, now: int, signatureOk: ExternalPrice -> bool): Acc
  {
    if prices == [] then Acc(0, 0, m, false)
    else Step(Absorb(prices[..|prices| - 1], m, now, signatureOk), prices[|prices| - 1], now, signatureOk)
  }

  /** What `process_external_prices` returns for a batch. */
  function Outcome(prices: seq<ExternalPrice>, m: map<Address, Stats>, now: int, signatureOk: ExternalPrice -> bool)
    : (r: Result<int, OC.OracleError>)
    ensures prices == [] ==> r == Err(OC.InsufficientOracles)
    ensures r.Err? ==> r.error in {OC.InsufficientOracles, OC.Overflow, OC.NoOracleData}
  {
    if prices == [] then Err(OC.InsufficientOracles)
    else
      var a := Absorb(prices, m, now, signatureOk);
      if a.overflow then Err(OC.Overflow)
      else if a.total == 0 then Err(OC.NoOracleData)
      else Ok(Quot(a.sum, a.total))
  }

  // ---------------------------------------------------------------------------
  // An independent description of the same loop

  /** An observation enters the average: valid signature, at most 300 s old, positive weight. */
  predicate Contributes(d: ExternalPrice, m: map<Address, Stats>, now: int, signatureOk: ExternalPrice -> bool)
  {
    signatureOk(d) && SatSub(now, d.timestamp) <= MAX_AGE && StatsOf(m, d.oracle).weight > 0
  }

  function Product(d: ExternalPrice, m: map<Address, Stats>): int
  {
    d.price * StatsOf(m, d.oracle).weight
  }

  /** The weighted sum and the total weight of the contributing observations. */
  function WeightedSum(prices: seq<ExternalPrice>, m: map<Address, Stats>, now: int, signatureOk: ExternalPrice -> bool): int
  {
    if prices == [] then 0
    else
      var d := prices[|prices| - 1];
      WeightedSum(prices[..|prices| - 1], m, now, signatureOk) + (if Contributes(d, m, now, signatureOk) then Product(d, m) else 0)
  }

  function TotalWeight(prices: seq<ExternalPrice>, m: map<Address, Stats>, now: int, signatureOk: ExternalPrice -> bool): nat
  {
    if prices == [] then 0
    else
      var d := prices[|prices| - 1];
      TotalWeight(prices[..|prices| - 1], m, now, signatureOk) + (if Contributes(d, m, now, signatureOk) then StatsOf(m, d.oracle).weight else 0)
  }

  /** Number of observations of `o` whose signature fails. */
  function Failures(prices: seq<ExternalPrice>, o: Address, signatureOk: ExternalPrice -> bool): nat
  {
    if prices == [] then 0
    else
      var d := prices[|prices| - 1];
      Failures(prices[..|prices| - 1], o, signatureOk) + (if d.oracle == o && !signatureOk(d) then 1 else 0)
  }

  /** The record of `o` after `k` signature failures at time `now`. */
  function SlashedTimes(s: Stats, k: nat, now: int): Stats
  {
    if k == 0 then s else s.(score := SatSub(s.score, 30 * k), lastSlash := now)
  }

  // ---------------------------------------------------------------------------
  // Properties

  /** Slashing never changes a weight, so every observation is weighed with its oracle's
      stored weight; when no product overflows, the loop's sums are those of the
      contributing observations, and every oracle's record has taken exactly one 30-point
      slash per failed signature. The loop stops at an overflow exactly when some
      contributing product leaves the i128 range. */
  lemma AbsorbMeaning(prices: seq<ExternalPrice>, m: map<Address, Stats>, now: int, signatureOk: ExternalPrice -> bool)
    ensures var a := Absorb(prices, m, now, signatureOk);
            && (forall o :: StatsOf(a.stats, o).weight == StatsOf(m, o).weight)
            && (a.overflow <==> exists i :: 0 <= i < |prices| && Contributes(prices[i], m, now, signatureOk) && !InI128(Product(prices[i], m)))
            && (!a.overflow ==>
                  && a.sum == WeightedSum(prices, m, now, signatureOk)
                  && a.total == TotalWeight(prices, m, now, signatureOk)
                  && forall o :: StatsOf(a.stats, o) == SlashedTimes(StatsOf(m, o), Failures(prices, o, signatureOk), now))
  {
    AbsorbWeights(prices, m, now, signatureOk);
    AbsorbOverflow(prices, m, now, signatureOk);
    AbsorbSums(prices, m, now, signatureOk);
    AbsorbSlashes(prices, m, now, signatureOk);
  }

  lemma {:induction false} AbsorbWeights(prices: seq<ExternalPrice>, m: map<Address, Stats>, now: int, signatureOk: ExternalPrice -> bool)
    ensures forall o :: StatsOf(Absorb(prices, m, now, signatureOk).stats, o).weight == StatsOf(m, o).weight
  {
    if prices != [] {
      var init := prices[..|prices| - 1];
      AbsorbWeights(init, m, now, signatureOk);
    }
  }

  lemma {:induction false} AbsorbOverflow(prices: seq<ExternalPrice>, m: map<Address, Stats>, now: int, signatureOk: ExternalPrice -> bool)
    ensures Absorb(prices, m, now, signatureOk).overflow <==>
            exists i :: 0 <= i < |prices| && Contributes(prices[i], m, now, signatureOk) && !InI128(Product(prices[i], m))
  {
    if prices != [] {
      var init, d := prices[..|prices| - 1], prices[|prices| - 1];
      AbsorbOverflow(init, m, now, signatureOk);
      AbsorbWeights(init, m, now, signatureOk);
      var b := Absorb(init, m, now, signatureOk);
      assert forall i :: 0 <= i < |init| ==> init[i] == prices[i];
      if Step(b, d, now, signatureOk).overflow && !b.overflow {
        assert Contributes(prices[|prices| - 1], m, now, signatureOk) && !InI128(Product(prices[|prices| - 1], m));
      }
    }
  }

  lemma {:induction false} AbsorbSums(prices: seq<ExternalPrice>, m: map<Address, Stats>, now: int, signatureOk: ExternalPrice -> bool)
    ensures var a := Absorb(prices, m, now, signatureOk);
            !a.overflow ==> a.sum == WeightedSum(prices, m, now, signatureOk) && a.total == TotalWeight(prices, m, now, signatureOk)
  {
    if prices != [] {
      var init := prices[..|prices| - 1];
      AbsorbSums(init, m, now, signatureOk);
      AbsorbWeights(init, m, now, signatureOk);
    }
  }

  lemma {:induction false} AbsorbSlashes(prices: seq<ExternalPrice>, m: map<Address, Stats>, now: int, signatureOk: ExternalPrice -> bool)
    ensures var a := Absorb(prices, m, now, signatureOk);
            !a.overflow ==> forall o :: StatsOf(a.stats, o) == SlashedTimes(StatsOf(m, o), Failures(prices, o, signatureOk), now)
  {
    if prices != [] {
      var init, d := prices[..|prices| - 1], prices[|prices| - 1];
      AbsorbSlashes(init, m, now, signatureOk);
      var b := Absorb(init, m, now, signatureOk);
      var a := Absorb(prices, m, now, signatureOk);
      if !a.overflow {
        assert !b.overflow;
        forall o
          ensures StatsOf(a.stats, o) == SlashedTimes(StatsOf(m, o), Failures(prices, o, signatureOk), now)
        {
          var k := Failures(init, o, signatureOk);
          if d.oracle == o && !signatureOk(d) {
            assert SatSub(SatSub(StatsOf(m, o).score, 30 * k), 30) == SatSub(StatsOf(m, o).score, 30 * (k + 1));
          }
        }
      }
    }
  }

  /** Truncating the weighted sum by the total weight cannot leave the range of the
      contributing prices. */
  lemma {:induction false} SumsWithin(prices: seq<ExternalPrice>, m: map<Address, Stats>, now: int, signatureOk: ExternalPrice -> bool, lo: int, hi: int)
    requires forall i :: 0 <= i < |prices| && Contributes(prices[i], m, now, signatureOk) ==> lo <= prices[i].price <= hi
    ensures lo * TotalWeight(prices, m, now, signatureOk) <= WeightedSum(prices, m, now, signatureOk)
                                                         <= hi * TotalWeight(prices, m, now, signatureOk)
  {
    if prices != [] {
      var init, d := prices[..|prices| - 1], prices[|prices| - 1];
      assert forall i :: 0 <= i < |init| ==> init[i] == prices[i];
      SumsWithin(init, m, now, signatureOk, lo, hi);
      if Contributes(d, m, now, signatureOk) {
        assert lo <= d.price <= hi by {
          assert d == prices[|prices| - 1];
        }
        AccumulateWithin(lo, hi, WeightedSum(init, m, now, signatureOk), TotalWeight(init, m, now, signatureOk),
                         d.price, StatsOf(m, d.oracle).weight);
      }
    }
  }

  /** A successful result lies between the smallest and the largest contributing price. */
  lemma AverageWithin(prices: seq<ExternalPrice>, m: map<Address, Stats>, now: int, signatureOk: ExternalPrice -> bool, lo: int, hi: int)
    requires forall i :: 0 <= i < |prices| && Contributes(prices[i], m, now, signatureOk) ==> lo <= prices[i].price <= hi
    ensures var r := Outcome(prices, m, now, signatureOk);
            r.Ok? ==> lo <= r.value <= hi
  {
    AbsorbMeaning(prices, m, now, signatureOk);
    SumsWithin(prices, m, now, signatureOk, lo, hi);
    var a := Absorb(prices, m, now, signatureOk);
    if prices != [] && !a.overflow && a.total > 0 {
      QuotBetween(a.sum, a.total, lo, hi);
    }
  }

  /** The error cases: an empty batch, an overflowing product, or no contributing observation. */
  lemma OutcomeErrors(prices: seq<ExternalPrice>, m: map<Address, Stats>, now: int, signatureOk: ExternalPrice -> bool)
    requires prices != []
    requires forall i :: 0 <= i < |prices| && Contributes(prices[i], m, now, signatureOk) ==> InI128(Product(prices[i], m))
    ensures var r := Outcome(prices, m, now, signatureOk);
            && (r == Err(OC.NoOracleData) <==> forall i :: 0 <= i < |prices| ==> !Contributes(prices[i], m, now, signatureOk))
            && (r.Ok? ==> TotalWeight(prices, m, now, signatureOk) > 0
                          && r.value == Quot(WeightedSum(prices, m, now, signatureOk), TotalWeight(prices, m, now, signatureOk)))
  {
    AbsorbMeaning(prices, m, now, signatureOk);
    TotalWeightZero(prices, m, now, signatureOk);
  }

  lemma {:induction false} TotalWeightZero(prices: seq<ExternalPrice>, m: map<Address, Stats>, now: int, signatureOk: ExternalPrice -> bool)
    ensures TotalWeight(prices, m, now, signatureOk) == 0 <==> forall i :: 0 <= i < |prices| ==> !Contributes(prices[i], m, now, signatureOk)
  {
    if prices != [] {
      var init := prices[..|prices| - 1];
      assert forall i :: 0 <= i < |init| ==> init[i] == prices[i];
      TotalWeightZero(init, m, now, signatureOk);
    }
  }

  /** An observation exactly 300 s old still counts; one 301 s old does not. */
  lemma FreshnessBoundary(d: ExternalPrice, m: map<Address, Stats>, signatureOk: ExternalPrice -> bool)
    requires signatureOk(d) && StatsOf(m, d.oracle).weight > 0
    ensures Contributes(d, m, d.timestamp + 300, signatureOk)
    ensures !Contributes(d, m, d.timestamp + 301, signatureOk)
  {
  }

  // ---------------------------------------------------------------------------
  // The operation

  /** `process_external_prices` against the contract's stats map. */
  method ProcessExternalPrices(c: OC.OracleContract, prices: seq<ExternalPrice>, now: int, signatureOk: ExternalPrice -> bool)
    returns (r: Result<int, OC.OracleError>)
    requires c.Valid()
    modifies c`stats
    ensures c.Valid()
    ensures r == Outcome(prices, old(c.stats), now, signatureOk)
    ensures prices != [] ==> c.stats == Absorb(prices, old(c.stats), now, signatureOk).stats
    ensures prices == [] ==> c.stats == old(c.stats)
  {
    if prices == [] {
      return Err(OC.InsufficientOracles);
    }
    ghost var m := c.stats;
    var weightedSum := 0;
    var totalWeight := 0;
    var i := 0;
    while i < |prices|
      invariant 0 <= i <= |prices|
      invariant Absorb(prices[..i], m, now, signatureOk) == Acc(weightedSum, totalWeight, c.stats, false)
      invariant c.Valid()
    {
      var data := prices[i];
      assert prices[..i + 1][..i] == prices[..i];
      if !signatureOk(data) {
        SlashEffect(StatsOf(c.stats, data.oracle), SignatureFailure, now);
        c.stats := c.stats[data.oracle := Slash(StatsOf(c.stats, data.oracle), SignatureFailure, now)];
      } else if SatSub(now, data.timestamp) <= MAX_AGE {
        var weight := StatsOf(c.stats, data.oracle).weight;
        if weight > 0 {
          var product := data.price * weight;
          if !InI128(product) {
            OverflowSticks(prices, i + 1, m, now, signatureOk);
            return Err(OC.Overflow);
          }
          weightedSum := weightedSum + product;
          totalWeight := totalWeight + weight;
        }
      }
      i := i + 1;
    }
    assert prices[..i] == prices;
    if totalWeight == 0 {
      return Err(OC.NoOracleData);
    }
    r := Ok(Quot(weightedSum, totalWeight));
  }

  /** Once a product overflows, the rest of the batch changes nothing. */
  lemma {:induction false} OverflowSticks(prices: seq<ExternalPrice>, j: nat, m: map<Address, Stats>, now: int, signatureOk: ExternalPrice -> bool)
    requires j <= |prices| && Absorb(prices[..j], m, now, signatureOk).overflow
    ensures Absorb(prices, m, now, signatureOk) == Absorb(prices[..j], m, now, signatureOk)
    decreases |prices| - j
  {
    if j < |prices| {
      assert prices[..j + 1][..j] == prices[..j];
      OverflowSticks(prices, j + 1, m, now, signatureOk);
    } else {
      assert prices[..j] == prices;
    }
  }
}
