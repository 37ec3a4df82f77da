// The oracle contract's consensus branch: registered oracles submit positive
// prices into a round buffer; `CalculateConsensus` takes a weighted median,
// scores and slashes every submission, re-weights every registered oracle,
// evicts low-reputation oracles while at least two remain, stores the result
// and empties the buffer. Storage entries are fields of `OracleContract`; the
// ledger clock is the parameter `now`; `require_auth` is taken as given.

module OracleContract {
  import opened Base
  import opened Sorting
  import opened OracleReputation
  import Assets

  datatype OracleError =
    | Unauthorized
    | OracleAlreadyExists
    | OracleNotFound
    | InvalidPrice
    | LowReputation
    | InsufficientOracles
    | NoOracleData
    | Overflow
    | PriceNotFound
    | StalePrice
    | UnreliablePrice
      // the two host panics of this branch, kept apart from the contract's own errors
    | PanicAlreadyInitialized
    | PanicDivisionByZero

  datatype Submission = Submission(oracle: Address, price: int, timestamp: int)

  datatype ConsensusData = ConsensusData(price: int, timestamp: int, numOracles: nat)

  /** An entry of a pair's price list (written by the pair-keyed submission path). */
  datatype PriceData = PriceData(price: int, timestamp: int, source: Address, confidence: nat)

  const PRICE_TTL: int := 300
  const MAX_SPREAD_PCT: int := 10

  // ---------------------------------------------------------------------------
  // The weighted median

  function Repeat(x: int, n: nat): (r: seq<int>)
    ensures |r| == n && forall i :: 0 <= i < n ==> r[i] == x
  {
    if n == 0 then [] else Repeat(x, n - 1) + [x]
  }

  /** How many copies of a submission's price enter the median: its oracle's weight, at least 1. */
  function Copies(s: Submission, m: map<Address, Stats>): nat
  {
    Max(StatsOf(m, s.oracle).weight, 1)
  }

  /** The replicated price list `weighted_median` builds before sorting. */
  function Expand(subs: seq<Submission>, m: map<Address, Stats>): (r: seq<int>)
    ensures |r| >= |subs|
  {
    if subs == [] then []
    else Expand(subs[..|subs| - 1], m) + Repeat(subs[|subs| - 1].price, Copies(subs[|subs| - 1], m))
  }

  predicate Ascending(t: seq<int>)
  {
    forall i, j :: 0 <= i < j < |t| ==> t[i] <= t[j]
  }

  /** The middle element, or the truncated mean of the two middle elements. */
  function MedianOf(t: seq<int>): int
    requires |t| > 0
  {
    var mid := |t| / 2;
    if |t| % 2 == 0 then Quot(t[mid - 1] + t[mid], 2) else t[mid]
  }

  /** `c` is the median of an ascending arrangement of the replicated prices (0 for no submissions). */
  ghost predicate IsWeightedMedian(c: int, subs: seq<Submission>, m: map<Address, Stats>)
  {
    if subs == [] then c == 0
    else exists t :: Ascending(t) && multiset(t) == multiset(Expand(subs, m)) && c == MedianOf(t)
  }

  predicate PricesWithin(subs: seq<Submission>, lo: int, hi: int)
  {
    forall i :: 0 <= i < |subs| ==> lo <= subs[i].price <= hi
  }

  lemma {:induction false} ExpandWithin(subs: seq<Submission>, m: map<Address, Stats>, lo: int, hi: int)
    requires PricesWithin(subs, lo, hi)
    ensures |Expand(subs, m)| >= |subs|
    ensures forall k :: 0 <= k < |Expand(subs, m)| ==> lo <= Expand(subs, m)[k] <= hi
  {
    if subs != [] {
      ExpandWithin(subs[..|subs| - 1], m, lo, hi);
    }
  }

  /** The weighted median lies within any bounds on the round's submitted prices,
      in particular between its minimum and maximum price. */
  lemma MedianWithin(subs: seq<Submission>, m: map<Address, Stats>, c: int, lo: int, hi: int)
    requires subs != [] && PricesWithin(subs, lo, hi)
    requires IsWeightedMedian(c, subs, m)
    ensures lo <= c <= hi
  {
    var e := Expand(subs, m);
    ExpandWithin(subs, m, lo, hi);
    var t :| Ascending(t) && multiset(t) == multiset(e) && c == MedianOf(t);
    RearrangedWithin(e, t, lo, hi);
    MedianOfWithin(t, lo, hi);
  }

  /** A rearrangement of values within bounds stays within them. */
  lemma RearrangedWithin(e: seq<int>, t: seq<int>, lo: int, hi: int)
    requires multiset(t) == multiset(e) && |e| > 0
    requires forall k :: 0 <= k < |e| ==> lo <= e[k] <= hi
    ensures |t| > 0 && forall k :: 0 <= k < |t| ==> lo <= t[k] <= hi
  {
    assert |t| == |multiset(t)| == |multiset(e)| == |e|;
    forall k | 0 <= k < |t|
      ensures lo <= t[k] <= hi
    {
      assert t[k] in multiset(e);
      var j :| 0 <= j < |e| && e[j] == t[k];
    }
  }

  /** The median of values within bounds is within them. */
  lemma MedianOfWithin(t: seq<int>, lo: int, hi: int)
    requires |t| > 0 && forall k :: 0 <= k < |t| ==> lo <= t[k] <= hi
    ensures lo <= MedianOf(t) <= hi
  {
    var mid := |t| / 2;
    if |t| % 2 == 0 {
      QuotBetween(t[mid - 1] + t[mid], 2, lo, hi);
    }
  }

  // ---------------------------------------------------------------------------
  // One round, as folds over the submissions and the oracle list

  /** The accuracy pass: track each submission, in order, and slash a deviation above 20%. */
  function TrackRound(m: map<Address, Stats>, subs: seq<Submission>, c: int, now: int): map<Address, Stats>
    requires c > 0
  {
    if subs == [] then m
    else
      var before := TrackRound(m, subs[..|subs| - 1], c, now);
      var s := subs[|subs| - 1];
      var tracked := Track(StatsOf(before, s.oracle), s.price, c);
      before[s.oracle := if Deviation(s.price, c) > MAJOR_DEVIATION_THRESHOLD
                         then Slash(tracked, MajorDeviation, now) else tracked]
  }

  /** The weight pass: adjust each oracle, in list order, and collect the removal candidates. */
  function AdjustRound(m: map<Address, Stats>, os: seq<Address>, now: int): (map<Address, Stats>, seq<Address>)
  {
    if os == [] then (m, [])
    else
      var (before, removed) := AdjustRound(m, os[..|os| - 1], now);
      var o := os[|os| - 1];
      var after := before[o := Adjust(StatsOf(before, o), now)];
      (after, if ShouldRemove(StatsOf(after, o), now) then removed + [o] else removed)
  }

  /** The eviction loop: remove every candidate in turn. */
  function RemoveAll(os: seq<Address>, removed: seq<Address>): seq<Address>
  {
    if removed == [] then os else Without(RemoveAll(os, removed[..|removed| - 1]), removed[|removed| - 1])
  }

  function SubmissionsBy(subs: seq<Submission>, o: Address): nat
  {
    if subs == [] then 0
    else SubmissionsBy(subs[..|subs| - 1], o) + (if subs[|subs| - 1].oracle == o then 1 else 0)
  }

  predicate AllSane(m: map<Address, Stats>)
  {
    forall o :: o in m ==> Sane(m[o])
  }

  lemma {:induction false} TrackRoundSane(m: map<Address, Stats>, subs: seq<Submission>, c: int, now: int)
    requires c > 0 && AllSane(m)
    ensures AllSane(TrackRound(m, subs, c, now))
  {
    if subs != [] {
      var before := TrackRound(m, subs[..|subs| - 1], c, now);
      TrackRoundSane(m, subs[..|subs| - 1], c, now);
      var s := subs[|subs| - 1];
      assert Sane(StatsOf(before, s.oracle));
      TrackBounds(StatsOf(before, s.oracle), s.price, c);
    }
  }

  /** Every submission is tracked exactly once: an oracle's submission count grows by
      the number of its submissions in the round, and only they can stamp a slash. */
  lemma TrackRoundCounts(m: map<Address, Stats>, subs: seq<Submission>, c: int, now: int, o: Address)
    requires c > 0
    ensures StatsOf(TrackRound(m, subs, c, now), o).total == StatsOf(m, o).total + SubmissionsBy(subs, o)
    ensures StatsOf(TrackRound(m, subs, c, now), o).lastSlash ==
            if exists i :: 0 <= i < |subs| && subs[i].oracle == o && Deviation(subs[i].price, c) > MAJOR_DEVIATION_THRESHOLD
            then now else StatsOf(m, o).lastSlash
  {
    TrackRoundTotal(m, subs, c, now, o);
    TrackRoundSlash(m, subs, c, now, o);
  }

  lemma {:induction false} TrackRoundTotal(m: map<Address, Stats>, subs: seq<Submission>, c: int, now: int, o: Address)
    requires c > 0
    ensures StatsOf(TrackRound(m, subs, c, now), o).total == StatsOf(m, o).total + SubmissionsBy(subs, o)
  {
    if subs != [] {
      TrackRoundTotal(m, subs[..|subs| - 1], c, now, o);
    }
  }

  lemma {:induction false} TrackRoundSlash(m: map<Address, Stats>, subs: seq<Submission>, c: int, now: int, o: Address)
    requires c > 0
    ensures StatsOf(TrackRound(m, subs, c, now), o).lastSlash ==
            if exists i :: 0 <= i < |subs| && subs[i].oracle == o && Deviation(subs[i].price, c) > MAJOR_DEVIATION_THRESHOLD
            then now else StatsOf(m, o).lastSlash
  {
    if subs != [] {
      var init := subs[..|subs| - 1];
      TrackRoundSlash(m, init, c, now, o);
      var s := subs[|subs| - 1];
      if s.oracle == o && Deviation(s.price, c) > MAJOR_DEVIATION_THRESHOLD {
        assert subs[|subs| - 1].oracle == o;
      } else {
        if exists i :: 0 <= i < |subs| && subs[i].oracle == o && Deviation(subs[i].price, c) > MAJOR_DEVIATION_THRESHOLD {
          var i :| 0 <= i < |subs| && subs[i].oracle == o && Deviation(subs[i].price, c) > MAJOR_DEVIATION_THRESHOLD;
          assert i < |init| && init[i] == subs[i];
        }
        if exists i :: 0 <= i < |init| && init[i].oracle == o && Deviation(init[i].price, c) > MAJOR_DEVIATION_THRESHOLD {
          var i :| 0 <= i < |init| && init[i].oracle == o && Deviation(init[i].price, c) > MAJOR_DEVIATION_THRESHOLD;
          assert subs[i] == init[i];
        }
      }
    }
  }

  /** After the weight pass every listed oracle's weight is the tier of its stored score,
      that score is its reputation, unlisted oracles are untouched, and candidates are listed oracles. */
  lemma AdjustRoundEffect(m: map<Address, Stats>, os: seq<Address>, now: int)
    ensures var (after, removed) := AdjustRound(m, os, now);
            && (forall o :: o in os ==>
                  StatsOf(after, o).weight == Tier(StatsOf(after, o).score)
                  && StatsOf(after, o).score == Reputation(StatsOf(after, o), now))
            && (forall o :: o !in os ==> StatsOf(after, o) == StatsOf(m, o))
            && (forall o :: o in removed ==> o in os && ShouldRemove(StatsOf(after, o), now))
            && (forall o :: o in os && ShouldRemove(StatsOf(after, o), now) ==> o in removed)
            && |removed| <= |os|
  {
    AdjustRoundStats(m, os, now);
    AdjustRoundCandidates(m, os, now);
  }

  lemma {:induction false} AdjustRoundStats(m: map<Address, Stats>, os: seq<Address>, now: int)
    ensures var after := AdjustRound(m, os, now).0;
            && (forall o :: o in os ==>
                  StatsOf(after, o).weight == Tier(StatsOf(after, o).score)
                  && StatsOf(after, o).score == Reputation(StatsOf(after, o), now))
            && (forall o :: o !in os ==> StatsOf(after, o) == StatsOf(m, o))
  {
    if os != [] {
      var init := os[..|os| - 1];
      AdjustRoundStats(m, init, now);
      var before := AdjustRound(m, init, now).0;
      var o := os[|os| - 1];
      AdjustKeepsReputation(StatsOf(before, o), now);
      assert forall x :: x in os <==> x in init || x == o;
    }
  }

  lemma {:induction false} AdjustRoundCandidates(m: map<Address, Stats>, os: seq<Address>, now: int)
    ensures var (after, removed) := AdjustRound(m, os, now);
            && (forall o :: o in removed ==> o in os && ShouldRemove(StatsOf(after, o), now))
            && (forall o :: o in os && ShouldRemove(StatsOf(after, o), now) ==> o in removed)
            && |removed| <= |os|
  {
    if os != [] {
      var init := os[..|os| - 1];
      AdjustRoundCandidates(m, init, now);
      AdjustRoundStats(m, init, now);
      assert forall x :: x in os <==> x in init || x == os[|os| - 1];
    }
  }

  lemma {:induction false} AdjustRoundSane(m: map<Address, Stats>, os: seq<Address>, now: int)
    requires AllSane(m)
    ensures AllSane(AdjustRound(m, os, now).0)
  {
    if os != [] {
      AdjustRoundSane(m, os[..|os| - 1], now);
    }
  }

  /** Evicting k candidates from a duplicate-free list leaves at least |os| - k oracles, all from `os`. */
  lemma {:induction false} RemoveAllEffect(os: seq<Address>, removed: seq<Address>)
    requires NoDup(os)
    ensures NoDup(RemoveAll(os, removed))
    ensures |RemoveAll(os, removed)| >= |os| - |removed|
    ensures forall o :: o in RemoveAll(os, removed) <==> o in os && o !in removed
  {
    if removed != [] {
      var init := removed[..|removed| - 1];
      var x := removed[|removed| - 1];
      RemoveAllEffect(os, init);
      WithoutNoDup(RemoveAll(os, init), x);
      assert forall o :: o in removed <==> o in init || o == x;
    }
  }

  /** The quorum floor: an all-or-nothing eviction leaves at least two oracles, or none is evicted. */
  lemma QuorumFloor(os: seq<Address>, removed: seq<Address>)
    requires NoDup(os)
    ensures var kept := if |os| - |removed| >= 2 then RemoveAll(os, removed) else os;
            |kept| >= Min(|os|, 2) && forall o :: o in kept ==> o in os
  {
    RemoveAllEffect(os, removed);
  }

  /** The stats and the oracle list after a round with consensus price `c`: track
      the submissions, adjust every registered oracle, and evict the candidates only
      when at least two oracles remain. */
  function Round(m: map<Address, Stats>, os: seq<Address>, subs: seq<Submission>, c: int, now: int): (r: (map<Address, Stats>, seq<Address>))
    requires c > 0
    ensures var removed := AdjustRound(TrackRound(m, subs, c, now), os, now).1;
            r.1 == os || (|os| - |removed| >= 2 && r.1 == RemoveAll(os, removed))
  {
    var (adjusted, removed) := AdjustRound(TrackRound(m, subs, c, now), os, now);
    (adjusted, if |os| - |removed| >= 2 then RemoveAll(os, removed) else os)
  }

  /** After a round the list never drops below the smaller of its old size and 2,
      keeps no duplicate and gains no oracle, and every oracle left weighs the tier
      of its score. */
  lemma RoundEffect(m: map<Address, Stats>, os: seq<Address>, subs: seq<Submission>, c: int, now: int)
    requires c > 0 && NoDup(os)
    ensures var (after, kept) := Round(m, os, subs, c, now);
            && |kept| >= Min(|os|, 2) && NoDup(kept)
            && (forall o :: o in kept ==> o in os)
            && (forall o :: o in kept ==> StatsOf(after, o).weight == Tier(StatsOf(after, o).score))
  {
    var (adjusted, removed) := AdjustRound(TrackRound(m, subs, c, now), os, now);
    AdjustRoundEffect(TrackRound(m, subs, c, now), os, now);
    QuorumFloor(os, removed);
    RemoveAllEffect(os, removed);
  }

  /** The oracles, submissions and records of the contract's major-deviation test:
      three fresh oracles submit 100, 101 and 150 (times 10^6). */
  function TestSubmissions(now: int): seq<Submission>
  {
    [Submission(1, 100_000_000, now), Submission(2, 101_000_000, now), Submission(3, 150_000_000, now)]
  }

  function TestOracles(): map<Address, Stats>
  {
    map[1 := Fresh, 2 := Fresh, 3 := Fresh]
  }

  /** In that round the weighted median is 101 (times 10^6). */
  lemma MajorDeviationMedian(now: int)
    ensures IsWeightedMedian(101_000_000, TestSubmissions(now), TestOracles())
  {
    var e := [100_000_000, 101_000_000, 150_000_000];
    TestExpansion(now);
    MedianOfThree(100_000_000, 101_000_000, 150_000_000);
    assert multiset(e) == multiset(Expand(TestSubmissions(now), TestOracles()));
  }

  /** Three ascending values have the middle one as their median. */
  lemma MedianOfThree(a: int, b: int, c: int)
    requires a <= b <= c
    ensures Ascending([a, b, c]) && MedianOf([a, b, c]) == b
  {
  }

  /** Every oracle of that test has weight 1, so each price enters once. */
  lemma TestExpansion(now: int)
    ensures Expand(TestSubmissions(now), TestOracles()) == [100_000_000, 101_000_000, 150_000_000]
  {
    var subs, m := TestSubmissions(now), TestOracles();
    var s1, s2 := subs[..1], subs[..2];
    assert s2[..1] == s1 && s1[..0] == [] && subs[..2] == s2;
    assert Repeat(100_000_000, 1) == [100_000_000];
    assert Repeat(101_000_000, 1) == [101_000_000];
    assert Repeat(150_000_000, 1) == [150_000_000];
    assert Expand(s1, m) == [100_000_000];
    assert Expand(s2, m) == [100_000_000, 101_000_000];
  }

  /** Tracking against that median: the third oracle deviates by 4851 bps and is slashed. */
  lemma MajorDeviationTracking(now: int)
    ensures TrackRound(TestOracles(), TestSubmissions(now), 101_000_000, now)
            == map[1 := Stats(1, 1, 99, 50, 1, 0), 2 := Stats(1, 1, 0, 50, 1, 0), 3 := Stats(1, 0, 4851, 30, 1, now)]
  {
    var subs, m := TestSubmissions(now), TestOracles();
    var s1, s2 := subs[..1], subs[..2];
    assert s2[..1] == s1 && s1[..0] == [] && subs[..2] == s2;
    assert Deviation(100_000_000, 101_000_000) == 99;
    assert Deviation(101_000_000, 101_000_000) == 0;
    assert Deviation(150_000_000, 101_000_000) == 4851;
    assert Track(Fresh, 100_000_000, 101_000_000) == Stats(1, 1, 99, 50, 1, 0);
    assert Track(Fresh, 101_000_000, 101_000_000) == Stats(1, 1, 0, 50, 1, 0);
    assert Track(Fresh, 150_000_000, 101_000_000) == Stats(1, 0, 4851, 50, 1, 0);
    assert TrackRound(m, [], 101_000_000, now) == m;
    var t1 := TrackRound(m, s1, 101_000_000, now);
    assert t1 == m[1 := Stats(1, 1, 99, 50, 1, 0)];
    var t2 := TrackRound(m, s2, 101_000_000, now);
    assert t2 == t1[2 := Stats(1, 1, 0, 50, 1, 0)];
  }

  /** The weight pass after it: the slashed oracle ends with reputation 26 and weight 0
      and is the only removal candidate; the other two keep a reputation of at least 90. */
  lemma MajorDeviationAdjusting(now: int)
    ensures var tracked := map[1 := Stats(1, 1, 99, 50, 1, 0), 2 := Stats(1, 1, 0, 50, 1, 0), 3 := Stats(1, 0, 4851, 30, 1, now)];
            var (after, removed) := AdjustRound(tracked, [1, 2, 3], now);
            && StatsOf(after, 3) == Stats(1, 0, 4851, 26, 0, now)
            && StatsOf(after, 1).score >= 90 && StatsOf(after, 2).score >= 90
            && removed == [3]
  {
    var tracked := map[1 := Stats(1, 1, 99, 50, 1, 0), 2 := Stats(1, 1, 0, 50, 1, 0), 3 := Stats(1, 0, 4851, 30, 1, now)];
    var os: seq<Address> := [1, 2, 3];
    assert os[..2] == [1, 2] && os[..2][..1] == [1] && os[..2][..1][..0] == [];
    var r1 := Reputation(Stats(1, 1, 99, 50, 1, 0), now);
    var r2 := Reputation(Stats(1, 1, 0, 50, 1, 0), now);
    var r3 := Reputation(Stats(1, 0, 4851, 30, 1, now), now);
    assert r1 >= 90 && r2 >= 90 && r3 == 26;
    var one: seq<Address> := [1];
    assert one[..0] == [] && AdjustRound(tracked, [], now) == (tracked, []);
    assert Tier(r1) == 10 && Tier(r2) == 10 && Tier(r3) == 0;
    var a1 := AdjustRound(tracked, one, now);
    assert a1 == (tracked[1 := Stats(1, 1, 99, r1, 10, 0)], []);
    var a2 := AdjustRound(tracked, [1, 2], now);
    assert a2 == (a1.0[2 := Stats(1, 1, 0, r2, 10, 0)], []);
  }

  /** The whole round of that test: median 101, the third oracle slashed to weight 0 and evicted. */
  lemma MajorDeviationRound(now: int)
    ensures var subs, m := TestSubmissions(now), TestOracles();
            && IsWeightedMedian(101_000_000, subs, m)
            && var tracked := TrackRound(m, subs, 101_000_000, now);
               var (after, removed) := AdjustRound(tracked, [1, 2, 3], now);
               && StatsOf(after, 3).score == 26 && StatsOf(after, 3).weight == 0
               && StatsOf(after, 3).lastSlash == now
               && removed == [3]
               && RemoveAll([1, 2, 3], removed) == [1, 2]
  {
    MajorDeviationMedian(now);
    MajorDeviationTracking(now);
    MajorDeviationAdjusting(now);
    var r: seq<Address> := [3];
    assert r[..0] == [];
    assert Without([1, 2, 3], 3) == [1, 2];
  }

  // ---------------------------------------------------------------------------
  // The price list of a pair

  function FreshPrices(prices: seq<PriceData>, now: int): (r: seq<PriceData>)
    ensures forall i :: 0 <= i < |r| ==> r[i] in prices && SatSub(now, r[i].timestamp) < PRICE_TTL
    ensures forall i :: 0 <= i < |prices| && SatSub(now, prices[i].timestamp) < PRICE_TTL ==> prices[i] in r
  {
    if prices == [] then []
    else
      var init := FreshPrices(prices[..|prices| - 1], now);
      var p := prices[|prices| - 1];
      if SatSub(now, p.timestamp) < PRICE_TTL then init + [p] else init
  }

  function ByPrice(p: PriceData): Rank { Rank(-p.price, 0) }

  predicate AscendingByPrice(t: seq<PriceData>)
  {
    forall i, j :: 0 <= i < j < |t| ==> t[i].price <= t[j].price
  }

  function MinPrice(s: seq<PriceData>): (r: int)
    requires s != []
    ensures (exists i :: 0 <= i < |s| && s[i].price == r) && forall i :: 0 <= i < |s| ==> r <= s[i].price
  {
    if |s| == 1 then s[0].price
    else
      var m := MinPrice(s[..|s| - 1]);
      assert forall i :: 0 <= i < |s| - 1 ==> s[..|s| - 1][i] == s[i];
      Min(m, s[|s| - 1].price)
  }

  function MaxPrice(s: seq<PriceData>): (r: int)
    requires s != []
    ensures (exists i :: 0 <= i < |s| && s[i].price == r) && forall i :: 0 <= i < |s| ==> s[i].price <= r
  {
    if |s| == 1 then s[0].price
    else
      var m := MaxPrice(s[..|s| - 1]);
      assert forall i :: 0 <= i < |s| - 1 ==> s[..|s| - 1][i] == s[i];
      Max(m, s[|s| - 1].price)
  }

  /** The ends of a price-ordered arrangement are the minimum and maximum prices. */
  lemma SortedEnds(t: seq<PriceData>, s: seq<PriceData>)
    requires t != [] && AscendingByPrice(t) && multiset(t) == multiset(s)
    ensures s != [] && t[0].price == MinPrice(s) && t[|t| - 1].price == MaxPrice(s)
  {
    assert |s| == |multiset(s)| == |multiset(t)| == |t|;
    SortedFirst(t, s);
    SortedLast(t, s);
  }

  lemma SortedFirst(t: seq<PriceData>, s: seq<PriceData>)
    requires t != [] && |s| == |t| && AscendingByPrice(t) && multiset(t) == multiset(s)
    ensures t[0].price == MinPrice(s)
  {
    assert t[0] in multiset(s);
    assert t[0] in s;
    var i :| 0 <= i < |s| && s[i].price == MinPrice(s);
    assert s[i] in multiset(t);
    var k :| 0 <= k < |t| && t[k] == s[i];
    assert k == 0 || t[0].price <= t[k].price;
  }

  lemma SortedLast(t: seq<PriceData>, s: seq<PriceData>)
    requires t != [] && |s| == |t| && AscendingByPrice(t) && multiset(t) == multiset(s)
    ensures t[|t| - 1].price == MaxPrice(s)
  {
    var last := |t| - 1;
    assert t[last] in multiset(s);
    assert t[last] in s;
    var j :| 0 <= j < |s| && s[j].price == MaxPrice(s);
    assert s[j] in multiset(t);
    var k :| 0 <= k < |t| && t[k] == s[j];
    assert k == last || t[k].price <= t[last].price;
  }

  /** The 10% agreement test on the live prices; a lowest price of 0 makes the host trap. */
  function SpreadCheck(live: seq<PriceData>): (r: Result<(), OracleError>)
    requires live != []
    ensures r.Err? ==> r.error in {PanicDivisionByZero, UnreliablePrice}
  {
    var lo, hi := MinPrice(live), MaxPrice(live);
    if lo == 0 then Err(PanicDivisionByZero)
    else if Quot((hi - lo) * 100, lo) > MAX_SPREAD_PCT then Err(UnreliablePrice)
    else Ok(())
  }

  /** `(price, confidence)` is the entry at index len/2 of the price-ascending
      arrangement of `live` that keeps equal prices in their order in `live`. */
  ghost predicate IsMedianEntry(v: (int, nat), live: seq<PriceData>)
  {
    exists t: seq<PriceData> :: |t| == |live| > 0 && AscendingByPrice(t) && multiset(t) == multiset(live)
                                && Stable(t, live, ByPrice) && v == (t[|t| / 2].price, t[|t| / 2].confidence)
  }

  /** The entry at index len/2 of a stable price-ascending arrangement is the median entry. */
  lemma MedianPick(t: seq<PriceData>, live: seq<PriceData>)
    requires |t| == |live| > 0 && AscendingByPrice(t) && multiset(t) == multiset(live) && Stable(t, live, ByPrice)
    ensures IsMedianEntry((t[|t| / 2].price, t[|t| / 2].confidence), live)
  {
  }

  lemma AscendingOrdered(t: seq<PriceData>)
    requires AscendingByPrice(t)
    ensures Ordered(t, ByPrice)
  {
    forall i, j | 0 <= i < j < |t|
      ensures !Precedes(ByPrice(t[i]), ByPrice(t[j]))
    {
      assert t[i].price <= t[j].price;
    }
  }

  /** There is only one median entry, so equal prices with different confidences
      leave no choice. */
  lemma MedianEntryUnique(v: (int, nat), w: (int, nat), live: seq<PriceData>)
    requires IsMedianEntry(v, live) && IsMedianEntry(w, live)
    ensures v == w
  {
    var t: seq<PriceData> :| |t| == |live| > 0 && AscendingByPrice(t) && multiset(t) == multiset(live)
                             && Stable(t, live, ByPrice) && v == (t[|t| / 2].price, t[|t| / 2].confidence);
    var u: seq<PriceData> :| |u| == |live| > 0 && AscendingByPrice(u) && multiset(u) == multiset(live)
                             && Stable(u, live, ByPrice) && w == (u[|u| / 2].price, u[|u| / 2].confidence);
    AscendingOrdered(t);
    AscendingOrdered(u);
    StableSortUnique(t, u, live, ByPrice);
  }

  /** When every live price is the same, the reported confidence is the one stored
      at index len/2 of the live list itself. */
  lemma EqualPricesMedian(v: (int, nat), live: seq<PriceData>)
    requires live != [] && forall i :: 0 <= i < |live| ==> live[i].price == live[0].price
    ensures IsMedianEntry(v, live) <==> v == (live[|live| / 2].price, live[|live| / 2].confidence)
  {
    assert AscendingByPrice(live) by {
      forall i, j | 0 <= i < j < |live|
        ensures live[i].price <= live[j].price
      {
        assert live[i].price == live[0].price == live[j].price;
      }
    }
    MedianPick(live, live);
    if IsMedianEntry(v, live) {
      MedianEntryUnique(v, (live[|live| / 2].price, live[|live| / 2].confidence), live);
    }
  }

  /** Whatever arrangement of equal prices the sort produces, the reported price lies
      between the lowest and the highest live price. */
  lemma MedianEntryPrice(v: (int, nat), live: seq<PriceData>)
    requires live != [] && IsMedianEntry(v, live)
    ensures MinPrice(live) <= v.0 <= MaxPrice(live)
  {
    var t: seq<PriceData> :| |t| == |live| > 0 && AscendingByPrice(t) && multiset(t) == multiset(live)
             && v == (t[|t| / 2].price, t[|t| / 2].confidence);
    assert t[|t| / 2] in multiset(live);
    assert t[|t| / 2] in live;
  }

  // ---------------------------------------------------------------------------
  // The contract

  class OracleContract {
    var admin: Option<Address>
    var oracles: seq<Address>
    var stats: map<Address, Stats>
    var submissions: seq<Submission>
    var consensus: Option<ConsensusData>
    var priceMap: map<Assets.AssetPair, seq<PriceData>>

    /** Registered oracles are distinct, every stored record is sane and every buffered price is positive. */
    ghost predicate Valid()
      reads this
    {
      NoDup(oracles) && AllSane(stats) && PricesWithin(submissions, 1, I128_MAX)
    }

    constructor ()
      ensures Valid()
      ensures admin == None && oracles == [] && stats == map[] && submissions == []
      ensures consensus == None && priceMap == map[]
    {
      admin := None;
      oracles := [];
      stats := map[];
      submissions := [];
      consensus := None;
      priceMap := map[];
    }

    /** `initialize`: the first call stores the admin; any later call panics. */
    method Initialize(newAdmin: Address) returns (r: Result<(), OracleError>)
      requires Valid()
      modifies this`admin
      ensures Valid()
      ensures old(admin).Some? ==> r == Err(PanicAlreadyInitialized) && admin == old(admin)
      ensures old(admin).None? ==> r == Ok(()) && admin == Some(newAdmin)
    {
      if admin.Some? {
        return Err(PanicAlreadyInitialized);
      }
      admin := Some(newAdmin);
      r := Ok(());
    }

    /** `require_admin`: an admin must be stored and equal the caller. */
    function RequireAdmin(caller: Address): (r: Result<(), OracleError>)
      reads this
      ensures r.Ok? <==> admin == Some(caller)
      ensures r.Err? ==> r.error == Unauthorized
    {
      match admin
      case None => Err(Unauthorized)
      case Some(a) => if caller != a then Err(Unauthorized) else Ok(())
    }

    /** `get_oracle_reputation`. */
    function GetOracleReputation(o: Address): (s: Stats)
      reads this
      ensures o !in stats ==> s == Fresh
      ensures Valid() ==> Sane(s)
    {
      StatsOf(stats, o)
    }

    /** `register_oracle`: admin only; a duplicate fails; otherwise append with live stats. */
    method RegisterOracle(caller: Address, oracle: Address) returns (r: Result<(), OracleError>)
      requires Valid()
      modifies this`oracles, this`stats
      ensures Valid()
      ensures r == (if admin != Some(caller) then Err(Unauthorized)
                    else if oracle in old(oracles) then Err(OracleAlreadyExists)
                    else Ok(()))
      ensures r.Ok? ==> oracles == old(oracles) + [oracle] && stats == old(stats)[oracle := Fresh]
      ensures r.Err? ==> oracles == old(oracles) && stats == old(stats)
    {
      var check := RequireAdmin(caller);
      if check.Err? {
        return Err(check.error);
      }
      if oracle in oracles {
        return Err(OracleAlreadyExists);
      }
      oracles := oracles + [oracle];
      stats := stats[oracle := Fresh];
      r := Ok(());
    }

    /** `submit_price`: positive price, registered oracle, non-zero weight, then append. */
    method SubmitPrice(oracle: Address, price: int, now: int) returns (r: Result<(), OracleError>)
      requires Valid()
      requires price <= I128_MAX
      modifies this`submissions
      ensures Valid()
      ensures r == (if price <= 0 then Err(InvalidPrice)
                    else if oracle !in oracles then Err(OracleNotFound)
                    else if StatsOf(stats, oracle).weight == 0 then Err(LowReputation)
                    else Ok(()))
      ensures r.Ok? ==> submissions == old(submissions) + [Submission(oracle, price, now)]
      ensures r.Err? ==> submissions == old(submissions)
    {
      if price <= 0 {
        return Err(InvalidPrice);
      }
      if oracle !in oracles {
        return Err(OracleNotFound);
      }
      var s := StatsOf(stats, oracle);
      if s.weight == 0 {
        return Err(LowReputation);
      }
      submissions := submissions + [Submission(oracle, price, now)];
      r := Ok(());
    }

    /** `weighted_median`: replicate each price by its oracle's weight (at least once),
        bubble-sort ascending and take the middle. */
    method WeightedMedian(subs: seq<Submission>) returns (c: int)
      ensures IsWeightedMedian(c, subs, stats)
    {
      if |subs| == 0 {
        return 0;
      }
      var weighted := ExpandPrices(subs, stats);
      c := SortedMedian(weighted);
    }

    /** The replication loops of `weighted_median`. */
    static method ExpandPrices(subs: seq<Submission>, m: map<Address, Stats>) returns (weighted: seq<int>)
      ensures weighted == Expand(subs, m)
    {
      weighted := [];
      var i := 0;
      while i < |subs|
        invariant 0 <= i <= |subs|
        invariant weighted == Expand(subs[..i], m)
      {
        var copies := Max(StatsOf(m, subs[i].oracle).weight, 1);
        var k := 0;
        while k < copies
          invariant 0 <= k <= copies
          invariant weighted == Expand(subs[..i], m) + Repeat(subs[i].price, k)
        {
          weighted := weighted + [subs[i].price];
          k := k + 1;
        }
        assert subs[..i + 1][..i] == subs[..i];
        i := i + 1;
      }
      assert subs[..|subs|] == subs;
    }

    /** The sort and the middle pick of `weighted_median`. */
    static method SortedMedian(weighted: seq<int>) returns (c: int)
      requires weighted != []
      ensures exists t :: |t| == |weighted| && Ascending(t) && multiset(t) == multiset(weighted) && c == MedianOf(t)
    {
      var a := new int[|weighted|];
      var k := 0;
      while k < a.Length
        invariant 0 <= k <= a.Length
        invariant a[..k] == weighted[..k]
      {
        a[k] := weighted[k];
        k := k + 1;
      }
      assert a[..] == weighted;
      BubbleSort(a, (x: int) => Rank(-x, 0));
      assert Ascending(a[..]) by {
        forall i, j | 0 <= i < j < a.Length
          ensures a[i] <= a[j]
        {
          assert !Precedes(Rank(-a[i], 0), Rank(-a[j], 0));
        }
      }
      var len := a.Length;
      var mid := len / 2;
      if len % 2 == 0 {
        c := Quot(a[mid - 1] + a[mid], 2);
      } else {
        c := a[mid];
      }
      assert c == MedianOf(a[..]);
    }

    /** `remove_oracle_internal`: rebuild the list without `oracle`. */
    method RemoveOracleInternal(oracle: Address)
      requires Valid()
      modifies this`oracles
      ensures Valid()
      ensures oracles == Without(old(oracles), oracle)
    {
      var kept := KeptOracles(oracles, oracle);
      WithoutNoDup(oracles, oracle);
      oracles := kept;
    }

    /** The rebuild loop of `remove_oracle_internal`. */
    static method KeptOracles(os: seq<Address>, oracle: Address) returns (kept: seq<Address>)
      ensures kept == Without(os, oracle)
    {
      kept := [];
      var i := 0;
      while i < |os|
        invariant 0 <= i <= |os|
        invariant kept == Without(os[..i], oracle)
      {
        WithoutPrefix(os, i, oracle);
        if os[i] != oracle {
          kept := kept + [os[i]];
        }
        i := i + 1;
      }
      assert os[..|os|] == os;
    }

    /** `remove_oracle`: admin only, no quorum floor. */
    method RemoveOracle(caller: Address, oracle: Address) returns (r: Result<(), OracleError>)
      requires Valid()
      modifies this`oracles
      ensures Valid()
      ensures r.Ok? <==> admin == Some(caller)
      ensures r.Err? ==> r.error == Unauthorized && oracles == old(oracles)
      ensures r.Ok? ==> oracles == Without(old(oracles), oracle)
    {
      var check := RequireAdmin(caller);
      if check.Err? {
        return Err(check.error);
      }
      RemoveOracleInternal(oracle);
      r := Ok(());
    }

    /** The accuracy loop of `calculate_consensus`. */
    method TrackSubmissions(subs: seq<Submission>, c: int, now: int)
      requires Valid() && c > 0
      modifies this`stats
      ensures Valid()
      ensures stats == TrackRound(old(stats), subs, c, now)
    {
      ghost var start := stats;
      var i := 0;
      while i < |subs|
        invariant 0 <= i <= |subs|
        invariant stats == TrackRound(start, subs[..i], c, now)
      {
        var s := subs[i];
        var tracked := Track(StatsOf(stats, s.oracle), s.price, c);
        stats := stats[s.oracle := tracked];
        var deviation := Deviation(s.price, c);
        if deviation > MAJOR_DEVIATION_THRESHOLD {
          stats := stats[s.oracle := Slash(StatsOf(stats, s.oracle), MajorDeviation, now)];
        }
        assert subs[..i + 1][..i] == subs[..i];
        i := i + 1;
      }
      assert subs[..|subs|] == subs;
      TrackRoundSane(start, subs, c, now);
    }

    /** The weight loop of `calculate_consensus`: adjust every registered oracle and
        collect those that should be removed. */
    method AdjustWeights(now: int) returns (removed: seq<Address>)
      requires Valid()
      modifies this`stats
      ensures Valid()
      ensures (stats, removed) == AdjustRound(old(stats), oracles, now)
    {
      ghost var start := stats;
      removed := [];
      var j := 0;
      while j < |oracles|
        invariant 0 <= j <= |oracles|
        invariant (stats, removed) == AdjustRound(start, oracles[..j], now)
      {
        var o := oracles[j];
        stats := stats[o := Adjust(StatsOf(stats, o), now)];
        if ShouldRemove(StatsOf(stats, o), now) {
          removed := removed + [o];
        }
        assert oracles[..j + 1][..j] == oracles[..j];
        j := j + 1;
      }
      assert oracles[..|oracles|] == oracles;
      AdjustRoundSane(start, oracles, now);
    }

    /** The eviction loop of `calculate_consensus`. */
    method EvictAll(removed: seq<Address>)
      requires Valid()
      modifies this`oracles
      ensures Valid()
      ensures oracles == RemoveAll(old(oracles), removed)
    {
      ghost var start := oracles;
      var k := 0;
      while k < |removed|
        invariant 0 <= k <= |removed|
        invariant oracles == RemoveAll(start, removed[..k])
        invariant Valid()
      {
        RemoveOracleInternal(removed[k]);
        assert removed[..k + 1][..k] == removed[..k];
        k := k + 1;
      }
      assert removed[..|removed|] == removed;
    }

    /** `calculate_consensus`, one round at time `now`. */
    method CalculateConsensus(now: int) returns (r: Result<int, OracleError>)
      requires Valid()
      modifies this`stats, this`oracles, this`submissions, this`consensus
      ensures Valid()
      ensures old(submissions) == [] ==>
                r == Err(InsufficientOracles) && stats == old(stats) && oracles == old(oracles)
                && submissions == old(submissions) && consensus == old(consensus)
      ensures old(submissions) != [] ==> r.Ok? && 1 <= r.value <= I128_MAX
      ensures old(submissions) != [] ==> IsWeightedMedian(r.value, old(submissions), old(stats))
      ensures old(submissions) != [] ==> (stats, oracles) == Round(old(stats), old(oracles), old(submissions), r.value, now)
      ensures old(submissions) != [] ==> submissions == [] && consensus == Some(ConsensusData(r.value, now, |old(submissions)|))
    {
      var subs := submissions;
      if subs == [] {
        return Err(InsufficientOracles);
      }
      var c := WeightedMedian(subs);
      MedianWithin(subs, stats, c, 1, I128_MAX);
      TrackSubmissions(subs, c, now);
      var removed := AdjustWeights(now);
      if |oracles| - |removed| >= 2 {
        EvictAll(removed);
      }
      consensus := Some(ConsensusData(c, now, |subs|));
      submissions := [];
      r := Ok(c);
    }

    /** `get_price_with_confidence`: the median of the pair's prices younger than 300 s,
        refused when the spread exceeds 10% of the lowest price. */
    method GetPriceWithConfidence(pair: Assets.AssetPair, now: int) returns (r: Result<(int, nat), OracleError>)
      ensures pair !in priceMap ==> r == Err(PriceNotFound)
      ensures pair in priceMap && FreshPrices(priceMap[pair], now) == [] ==> r == Err(StalePrice)
      ensures pair in priceMap && FreshPrices(priceMap[pair], now) != [] ==>
                var live := FreshPrices(priceMap[pair], now);
                if SpreadCheck(live).Err? then r == Err(SpreadCheck(live).error)
                else r.Ok? && IsMedianEntry(r.value, live)
    {
      if pair !in priceMap {
        return Err(PriceNotFound);
      }
      var live := LivePrices(priceMap[pair], now);
      if live == [] {
        return Err(StalePrice);
      }
      r := ConfidentPrice(live);
    }

    /** The sort, the spread test and the middle pick of `get_price_with_confidence`. */
    static method ConfidentPrice(live: seq<PriceData>) returns (r: Result<(int, nat), OracleError>)
      requires live != []
      ensures SpreadCheck(live).Err? ==> r == Err(SpreadCheck(live).error)
      ensures SpreadCheck(live).Ok? ==> r.Ok? && IsMedianEntry(r.value, live)
    {
      var a := SortByPrice(live);
      var len := |a|;
      var median := a[len / 2];
      var minP := a[0].price;
      var maxP := a[len - 1].price;
      SortedEnds(a, live);
      MedianPick(a, live);
      if minP == 0 {
        return Err(PanicDivisionByZero);
      }
      if Quot((maxP - minP) * 100, minP) > MAX_SPREAD_PCT {
        return Err(UnreliablePrice);
      }
      r := Ok((median.price, median.confidence));
    }

    /** The staleness filter of `get_price_with_confidence`. */
    static method LivePrices(prices: seq<PriceData>, now: int) returns (live: seq<PriceData>)
      ensures live == FreshPrices(prices, now)
    {
      live := [];
      var i := 0;
      while i < |prices|
        invariant 0 <= i <= |prices|
        invariant live == FreshPrices(prices[..i], now)
      {
        if SatSub(now, prices[i].timestamp) < PRICE_TTL {
          live := live + [prices[i]];
        }
        assert prices[..i + 1][..i] == prices[..i];
        i := i + 1;
      }
      assert prices[..|prices|] == prices;
    }

    /** The price sort of `get_price_with_confidence`, run on a copy of the list. */
    static method SortByPrice(s: seq<PriceData>) returns (t: seq<PriceData>)
      requires s != []
      ensures |t| == |s| && AscendingByPrice(t) && multiset(t) == multiset(s)
      ensures Stable(t, s, ByPrice)
    {
      var a := new PriceData[|s|](k => s[0]);
      var k := 0;
      while k < a.Length
        invariant 0 <= k <= a.Length
        invariant a[..k] == s[..k]
      {
        a[k] := s[k];
        k := k + 1;
      }
      assert a[..] == s;
      BubbleSort(a, ByPrice);
      forall i, j | 0 <= i < j < a.Length
        ensures a[i].price <= a[j].price
      {
        assert !Precedes(ByPrice(a[i]), ByPrice(a[j]));
      }
      t := a[..];
    }
  }
}
