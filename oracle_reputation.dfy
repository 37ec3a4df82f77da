// Per-oracle reputation records of the oracle contract and the pure rules
// that update one record: accuracy tracking, slashing, the 0-100 reputation
// score and the weight tier derived from it. The contract object
// (`OracleContract`) reads a record, applies one of these rules and writes the
// record back into its stats map.

module OracleReputation {
  import opened Base

  const ACCURACY_THRESHOLD_TIGHT: int := 100
  const ACCURACY_THRESHOLD_MODERATE: int := 500
  const MAJOR_DEVIATION_THRESHOLD: int := 2000
  const WEEK_IN_SECONDS: int := 86400 * 7

  /** `OracleReputation`: the counters are `u32`, the deviation an `i128` in basis points. */
  datatype Stats = Stats(
    total: nat,
    accurate: nat,
    avgDeviation: int,
    score: nat,
    weight: nat,
    lastSlash: int)

  datatype SlashReason = MajorDeviation | SignatureFailure

  /** The record read for an oracle that has none stored, and the one registration stores. */
  const Fresh: Stats := Stats(0, 0, 0, 50, 1, 0)

  /** What every stored record satisfies: no more accurate submissions than submissions,
      a non-negative average deviation and a score of at most 100. */
  predicate Sane(s: Stats)
  {
    s.accurate <= s.total && s.avgDeviation >= 0 && s.score <= 100
  }

  /** `get_oracle_stats`: the stored record, or the fresh record. */
  function StatsOf(m: map<Address, Stats>, o: Address): Stats
  {
    if o in m then m[o] else Fresh
  }

  /** The deviation of a submission from the consensus price, in basis points. */
  function Deviation(price: int, consensus: int): (d: nat)
    requires consensus > 0
  {
    QuotNonNegative(Abs(price - consensus) * 10000, consensus);
    Quot(Abs(price - consensus) * 10000, consensus)
  }

  /** `calculate_reputation`: 60 points for accuracy, 30 for a low average deviation,
      10 for no slash in the last week, clamped to 0..100. The clock is `now`. */
  function Reputation(s: Stats, now: int): (r: nat)
    ensures r <= 100
    ensures s.total == 0 ==> r == 50
  {
    if s.total == 0 then 50
    else
      var accuracyScore := s.accurate * 60 / s.total;
      var deviationPenalty := Min(Quot(s.avgDeviation, 1000), 30);
      var deviationScore := 30 - deviationPenalty;
      var consistencyScore := if now - s.lastSlash > WEEK_IN_SECONDS then 10 else 0;
      var sum := accuracyScore + deviationScore + consistencyScore;
      if sum > 100 then 100 else if sum < 0 then 0 else sum
  }

  /** The weight tier of a reputation (`adjust_oracle_weight`'s match). */
  function Tier(reputation: int): nat
  {
    if 90 <= reputation <= 100 then 10
    else if 75 <= reputation <= 89 then 5
    else if 60 <= reputation <= 74 then 2
    else if 50 <= reputation <= 59 then 1
    else 0
  }

  /** `track_oracle_accuracy` on one record. */
  function Track(s: Stats, price: int, consensus: int): Stats
    requires consensus > 0
  {
    var total := s.total + 1;
    var deviation := Deviation(price, consensus);
    var totalDev := s.avgDeviation * (total - 1);
    var avg := Quot(totalDev + deviation, total);
    var accurate :=
      if deviation <= ACCURACY_THRESHOLD_TIGHT then s.accurate + 1
      else if deviation <= ACCURACY_THRESHOLD_MODERATE then s.accurate + 1
      else s.accurate;
    s.(total := total, avgDeviation := avg, accurate := accurate)
  }

  function Penalty(reason: SlashReason): nat
  {
    match reason
    case MajorDeviation => 20
    case SignatureFailure => 30
  }

  /** `slash_oracle` on one record, at time `now`. */
  function Slash(s: Stats, reason: SlashReason, now: int): Stats
  {
    s.(score := SatSub(s.score, Penalty(reason)), lastSlash := now)
  }

  /** `adjust_oracle_weight` on one record: the score and the weight are recomputed. */
  function Adjust(s: Stats, now: int): Stats
  {
    var reputation := Reputation(s, now);
    s.(weight := Tier(reputation), score := reputation)
  }

  /** `should_remove_oracle`. */
  predicate ShouldRemove(s: Stats, now: int)
  {
    (s.total >= 100 && s.accurate * 100 / s.total < 50) || Reputation(s, now) < 50
  }

  // ---------------------------------------------------------------------------
  // Properties

  /** An oracle without a stored record reads as score 50, weight 1 and zero counters,
      and any record without submissions has reputation 50 and tier 1. */
  lemma UnknownOracleIsFresh(m: map<Address, Stats>, o: Address, s: Stats, now: int)
    requires o !in m
    requires s.total == 0
    ensures StatsOf(m, o) == Stats(0, 0, 0, 50, 1, 0)
    ensures Reputation(s, now) == 50 && Tier(Reputation(s, now)) == 1
  {
  }

  /** For a sane record the three parts (at most 60, 30 and 10) never need the clamp. */
  lemma ReputationParts(s: Stats, now: int)
    requires Sane(s) && s.total > 0
    ensures var accuracyScore := s.accurate * 60 / s.total;
            var deviationScore := 30 - Min(s.avgDeviation / 1000, 30);
            && 0 <= accuracyScore <= 60
            && 0 <= deviationScore <= 30
            && Reputation(s, now) ==
               accuracyScore + deviationScore + (if now - s.lastSlash > WEEK_IN_SECONDS then 10 else 0)
  {
    var a := s.accurate * 60;
    assert a <= s.total * 60;
    QuotBetween(a, s.total, 0, 60);
    QuotNonNegative(a, s.total);
    QuotNonNegative(s.avgDeviation, 1000);
  }

  /** Weight tiers never decrease as reputation grows (within the 0..100 range of scores). */
  lemma TierMonotone(a: int, b: int)
    requires a <= b <= 100
    ensures Tier(a) <= Tier(b)
  {
  }

  /** A reputation below 50 is exactly the one whose tier is weight 0. */
  lemma LowReputationIsZeroWeight(r: int)
    requires r <= 100
    ensures r < 50 <==> Tier(r) == 0
  {
  }

  /** Tracking adds one submission, at most one accurate submission, and keeps the
      average deviation between 0 and the larger of the old average and the new deviation. */
  lemma TrackBounds(s: Stats, price: int, consensus: int)
    requires Sane(s) && consensus > 0
    ensures var t := Track(s, price, consensus);
            && t.total == s.total + 1
            && s.accurate <= t.accurate <= s.accurate + 1
            && (t.accurate == s.accurate + 1 <==> Deviation(price, consensus) <= ACCURACY_THRESHOLD_MODERATE)
            && 0 <= t.avgDeviation <= Max(s.avgDeviation, Deviation(price, consensus))
            && Sane(t)
            && t.score == s.score && t.weight == s.weight && t.lastSlash == s.lastSlash
  {
    var n := s.total + 1;
    var d := Deviation(price, consensus);
    var hi := Max(s.avgDeviation, d);
    var sum := s.avgDeviation * (n - 1) + d;
    assert s.avgDeviation * (n - 1) <= hi * (n - 1) by {
      assert (hi - s.avgDeviation) * (n - 1) >= 0;
    }
    assert s.avgDeviation * (n - 1) >= 0;
    assert hi * (n - 1) + hi == hi * n;
    QuotBetween(sum, n, 0, hi);
  }

  /** A slash costs 20 or 30 points, saturating at zero, stamps `now`, and touches nothing else. */
  lemma SlashEffect(s: Stats, reason: SlashReason, now: int)
    ensures var t := Slash(s, reason, now);
            && t.score == (if s.score >= Penalty(reason) then s.score - Penalty(reason) else 0)
            && t.lastSlash == now
            && t.total == s.total && t.accurate == s.accurate
            && t.avgDeviation == s.avgDeviation && t.weight == s.weight
  {
  }

  /** Adjusting stores the tier of the freshly computed reputation together with that
      reputation, and leaves the counters, the deviation and the slash time alone. */
  lemma AdjustEffect(s: Stats, now: int)
    ensures var t := Adjust(s, now);
            && t.score == Reputation(s, now) && t.weight == Tier(t.score)
            && t.total == s.total && t.accurate == s.accurate
            && t.avgDeviation == s.avgDeviation && t.lastSlash == s.lastSlash
  {
  }

  /** A slash's score deduction is overwritten by the next adjustment: what survives
      is only the new slash time, so the slashed oracle loses the consistency bonus. */
  lemma SlashOnlyPersistsThroughLastSlash(s: Stats, reason: SlashReason, now: int)
    requires Sane(s) && s.total > 0
    ensures Adjust(Slash(s, reason, now), now) == Adjust(s.(lastSlash := now), now)
    ensures Reputation(Slash(s, reason, now), now) <= 90
  {
    ReputationParts(Slash(s, reason, now), now);
  }

  /** Reputation and removal read only the counters, the deviation and the slash time,
      so adjusting a record does not change either. */
  lemma AdjustKeepsReputation(s: Stats, now: int)
    ensures Reputation(Adjust(s, now), now) == Reputation(s, now)
    ensures ShouldRemove(Adjust(s, now), now) == ShouldRemove(s, now)
    ensures Adjust(Adjust(s, now), now) == Adjust(s, now)
  {
  }
}
