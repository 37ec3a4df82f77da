// The paginated signal feed: live signals, optionally of one provider, sorted
// best first by one of three orders, then cut to one page of summaries.

module Query {
  import opened Base
  import opened RegistryTypes
  import opened Sorting
  import Expiry

  const MAX_LIMIT: nat := 50
  const DEFAULT_LIMIT: nat := 20

  datatype SortOption = PerformanceDesc | RecencyDesc | VolumeDesc

  datatype SignalSummary = SignalSummary(
    id: nat,
    provider: Address,
    assetPair: Text,
    action: SignalAction,
    price: int,
    successRate: nat,
    totalCopies: nat,
    timestamp: int)

  /** Successful executions per execution in basis points, 0 before the first one. */
  function SuccessRate(s: Signal): (r: nat)
    ensures s.successfulExecutions <= s.executions ==> r <= 10000
  {
    if s.executions > 0 then
      RateBound(s.successfulExecutions, s.executions);
      (s.successfulExecutions * 10000) / s.executions
    else 0
  }

  lemma RateBound(successful: nat, executions: nat)
    requires executions > 0
    ensures successful <= executions ==> successful * 10000 / executions <= 10000
  {
    QuotNonNegative(successful * 10000, executions);
    if successful <= executions {
      QuotBetween(successful * 10000, executions, 0, 10000);
    }
  }

  function Summarize(s: Signal): (r: SignalSummary)
    ensures r.id == s.id && r.provider == s.provider && r.timestamp == s.timestamp
    ensures r.successRate == SuccessRate(s) && r.totalCopies == s.executions
  {
    SignalSummary(s.id, s.provider, s.assetPair, s.action, s.price, SuccessRate(s), s.executions, s.timestamp)
  }

  /** The feed's swap test: ties on success rate or volume go to the newer signal. */
  function KeyOf(o: SortOption): Signal -> Rank
  {
    match o
    case PerformanceDesc => (s: Signal) => Rank(SuccessRate(s), s.timestamp)
    case RecencyDesc => (s: Signal) => Rank(s.timestamp, 0)
    case VolumeDesc => (s: Signal) => Rank(s.totalVolume, s.timestamp)
  }

  /** A signal the feed may show: live, and by the requested provider if one is given. */
  predicate Eligible(s: Signal, provider: Option<Address>, now: int)
  {
    Expiry.Live(s, now) && (provider.None? || s.provider == provider.value)
  }

  /** The eligible entries, in key order. */
  function Candidates(signals: seq<Signal>, provider: Option<Address>, now: int): seq<Signal>
  {
    if |signals| == 0 then []
    else
      var rest := Candidates(signals[..|signals| - 1], provider, now);
      var s := signals[|signals| - 1];
      if Eligible(s, provider, now) then rest + [s] else rest
  }

  /** The candidates are exactly the eligible entries. */
  lemma {:induction false} CandidatesMeaning(signals: seq<Signal>, provider: Option<Address>, now: int)
    ensures forall s :: s in Candidates(signals, provider, now) <==> s in signals && Eligible(s, provider, now)
    ensures |Candidates(signals, provider, now)| <= |signals|
  {
    if |signals| > 0 {
      CandidatesMeaning(signals[..|signals| - 1], provider, now);
      assert signals == signals[..|signals| - 1] + [signals[|signals| - 1]];
    }
  }

  /** The page size: 20 for a limit of 0, at most 50. */
  function PageLimit(limit: nat): (n: nat)
    ensures 1 <= n <= MAX_LIMIT
    ensures 1 <= limit <= MAX_LIMIT ==> n == limit
  {
    if limit == 0 then DEFAULT_LIMIT else if limit > MAX_LIMIT then MAX_LIMIT else limit
  }

  /** Summaries of `s`, in order. */
  function Summaries(s: seq<Signal>): (r: seq<SignalSummary>)
    ensures |r| == |s|
    ensures forall i :: 0 <= i < |s| ==> r[i] == Summarize(s[i])
  {
    if |s| == 0 then [] else Summaries(s[..|s| - 1]) + [Summarize(s[|s| - 1])]
  }

  /** The page of a sorted feed starting at `offset`. */
  function Page(sorted: seq<Signal>, offset: nat, limit: nat): (r: seq<SignalSummary>)
    ensures offset >= |sorted| ==> r == []
    ensures offset < |sorted| ==> |r| == Min(PageLimit(limit), |sorted| - offset)
    ensures forall i :: 0 <= i < |r| ==> offset + i < |sorted| && r[i] == Summarize(sorted[offset + i])
  {
    if offset >= |sorted| then []
    else Summaries(sorted[offset..Min(offset + PageLimit(limit), |sorted|)])
  }

  /** `sorted` is the candidate list rearranged into the feed order, signals with
      equal keys left in their candidate order. */
  ghost predicate SortedFeed(sorted: seq<Signal>, candidates: seq<Signal>, o: SortOption)
  {
    multiset(sorted) == multiset(candidates) && Ordered(sorted, KeyOf(o)) && Stable(sorted, candidates, KeyOf(o))
  }

  /** There is one sorted feed per candidate list and order, so every page is cut
      from the same list and pages at different offsets do not overlap. */
  lemma FeedUnique(s1: seq<Signal>, s2: seq<Signal>, candidates: seq<Signal>, o: SortOption)
    requires SortedFeed(s1, candidates, o) && SortedFeed(s2, candidates, o)
    ensures s1 == s2
  {
    StableSortUnique(s1, s2, candidates, KeyOf(o));
  }

  /** The signals are listed in increasing id order, as a map keyed by id iterates. */
  predicate IdAscending(signals: seq<Signal>)
  {
    forall k, l :: 0 <= k < l < |signals| ==> signals[k].id < signals[l].id
  }

  /** Signals listed in id order are still in id order after the eligibility filter. */
  lemma {:induction false} CandidatesIdOrder(signals: seq<Signal>, provider: Option<Address>, now: int)
    requires IdAscending(signals)
    ensures IdAscending(Candidates(signals, provider, now))
  {
    if |signals| > 0 {
      var init := signals[..|signals| - 1];
      CandidatesIdOrder(init, provider, now);
      CandidatesMeaning(init, provider, now);
      var rest := Candidates(init, provider, now);
      forall k | 0 <= k < |rest|
        ensures rest[k].id < signals[|signals| - 1].id
      {
        assert rest[k] in init;
      }
    }
  }

  /** Ties in the feed, that is equal timestamps by recency, equal rates and
      timestamps by performance, equal volumes and timestamps by volume, come out
      in the order of their ids when the store lists the signals in id order. */
  lemma TiesInIdOrder(sorted: seq<Signal>, signals: seq<Signal>, provider: Option<Address>, now: int,
                      o: SortOption, i: nat, j: nat)
    requires IdAscending(signals)
    requires SortedFeed(sorted, Candidates(signals, provider, now), o)
    requires i < j < |sorted| && KeyOf(o)(sorted[i]) == KeyOf(o)(sorted[j])
    ensures sorted[i].id < sorted[j].id
  {
    var c := Candidates(signals, provider, now);
    CandidatesIdOrder(signals, provider, now);
    StableTies(sorted, c, KeyOf(o), i, j);
    var i', j' :| 0 <= i' < j' < |c| && c[i'] == sorted[i] && c[j'] == sorted[j];
    assert c[i'].id < c[j'].id;
  }

  /** Step 1 of the feed: the eligible signals in key order. */
  method CollectCandidates(signals: seq<Signal>, providerFilter: Option<Address>, now: int)
    returns (active: seq<Signal>)
    ensures active == Candidates(signals, providerFilter, now)
  {
    active := [];
    var i := 0;
    while i < |signals|
      invariant 0 <= i <= |signals|
      invariant active == Candidates(signals[..i], providerFilter, now)
    {
      assert signals[..i + 1][..i] == signals[..i];
      var s := signals[i];
      if s.expiry > now && s.status != Expired && s.status != Executed {
        var wanted := true;
        if providerFilter.Some? && s.provider != providerFilter.value {
          wanted := false;
        }
        if wanted {
          active := active + [s];
        }
      }
      i := i + 1;
    }
    assert signals[..i] == signals;
  }

  /** Step 3 of the feed: the summaries of positions `offset` to `end` of the sorted list. */
  method Paginate(sorted: array<Signal>, offset: nat, end: nat) returns (results: seq<SignalSummary>)
    requires offset <= end <= sorted.Length
    ensures results == Summaries(sorted[offset..end])
  {
    results := [];
    var k := offset;
    while k < end
      invariant offset <= k <= end
      invariant results == Summaries(sorted[offset..k])
    {
      assert sorted[offset..k + 1][..k - offset] == sorted[offset..k];
      var signal := sorted[k];
      var successRate := if signal.executions > 0 then (signal.successfulExecutions * 10000) / signal.executions else 0;
      results := results + [SignalSummary(signal.id, signal.provider, signal.assetPair, signal.action,
                                          signal.price, successRate, signal.executions, signal.timestamp)];
      k := k + 1;
    }
  }

  /** `get_active_signals` (query.rs). */
  method GetActiveSignals(signals: seq<Signal>, providerFilter: Option<Address>, offset: nat, limit: nat,
                          sortBy: SortOption, now: int)
    returns (results: seq<SignalSummary>)
    ensures offset >= |Candidates(signals, providerFilter, now)| ==> results == []
    ensures offset < |Candidates(signals, providerFilter, now)| ==>
              exists sorted :: SortedFeed(sorted, Candidates(signals, providerFilter, now), sortBy)
                             && results == Page(sorted, offset, limit)
  {
    var active := CollectCandidates(signals, providerFilter, now);
    var total := |active|;
    if offset >= total || total == 0 {
      return [];
    }
    var actualLimit := limit;
    if actualLimit == 0 {
      actualLimit := DEFAULT_LIMIT;
    } else if actualLimit > MAX_LIMIT {
      actualLimit := MAX_LIMIT;
    }
    var a := new Signal[total](k requires 0 <= k < total => active[k]);
    assert a[..] == active;
    BubbleSort(a, KeyOf(sortBy));
    var end := Min(offset + actualLimit, total);
    results := Paginate(a, offset, end);
    assert SortedFeed(a[..], active, sortBy);
    assert results == Page(a[..], offset, limit);
  }

  /** A sorted feed holds exactly the candidates, and each page is in feed order:
      by recency, newest first; by performance, highest success rate first and the
      newer of two equal rates first; by volume, highest total volume first and the
      newer of two equal volumes first. */
  lemma PageMeaning(sorted: seq<Signal>, candidates: seq<Signal>, o: SortOption, offset: nat, limit: nat)
    requires SortedFeed(sorted, candidates, o)
    ensures forall s :: s in sorted <==> s in candidates
    ensures |sorted| == |candidates|
    ensures var r := Page(sorted, offset, limit);
            o == RecencyDesc ==> forall i, j :: 0 <= i < j < |r| ==> r[i].timestamp >= r[j].timestamp
    ensures var r := Page(sorted, offset, limit);
            o == PerformanceDesc ==> forall i, j :: 0 <= i < j < |r| ==>
              r[i].successRate > r[j].successRate || (r[i].successRate == r[j].successRate && r[i].timestamp >= r[j].timestamp)
    ensures var r := Page(sorted, offset, limit);
            o == VolumeDesc ==> forall i, j :: 0 <= i < j < |r| ==>
              offset + j < |sorted| && r[i].id == sorted[offset + i].id && r[j].id == sorted[offset + j].id &&
              (sorted[offset + i].totalVolume > sorted[offset + j].totalVolume ||
               (sorted[offset + i].totalVolume == sorted[offset + j].totalVolume && r[i].timestamp >= r[j].timestamp))
  {
    assert |sorted| == |multiset(sorted)| == |multiset(candidates)| == |candidates|;
    forall s ensures s in sorted <==> s in candidates {
      assert s in sorted <==> s in multiset(sorted);
      assert s in candidates <==> s in multiset(candidates);
    }
    var r := Page(sorted, offset, limit);
    forall i, j | 0 <= i < j < |r|
      ensures r[i] == Summarize(sorted[offset + i]) && r[j] == Summarize(sorted[offset + j])
      ensures !Precedes(KeyOf(o)(sorted[offset + i]), KeyOf(o)(sorted[offset + j]))
    {
    }
  }

  /** For a sorted feed, every signal on the page ranks at least as high as any
      candidate after it and no higher than any before it. */
  lemma PageIsTopSlice(sorted: seq<Signal>, candidates: seq<Signal>, o: SortOption, offset: nat, limit: nat)
    requires SortedFeed(sorted, candidates, o)
    requires offset < |sorted|
    ensures var end := offset + |Page(sorted, offset, limit)|;
            && multiset(sorted[..offset]) + multiset(sorted[offset..end]) + multiset(sorted[end..]) == multiset(candidates)
            && (forall i, k :: offset <= i < end <= k < |sorted| ==> !Precedes(KeyOf(o)(sorted[i]), KeyOf(o)(sorted[k])))
            && (forall k, i :: 0 <= k < offset <= i < end ==> !Precedes(KeyOf(o)(sorted[k]), KeyOf(o)(sorted[i])))
  {
    var end := offset + |Page(sorted, offset, limit)|;
    assert sorted == sorted[..offset] + sorted[offset..end] + sorted[end..];
  }

  /** The batch query examples: a limit of 0 is 20, 80 is capped at 50, and an
      offset past the end gives nothing. */
  lemma QueryExamples(sorted: seq<Signal>)
    requires |sorted| == 60
    ensures |Page(sorted, 0, 0)| == 20
    ensures |Page(sorted, 0, 80)| == 50
    ensures |Page(sorted, 50, 20)| == 10
    ensures Page(sorted, 60, 10) == []
  {
  }
}
