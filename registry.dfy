// The signal registry's entry points: the id counter, signal creation (pause,
// asset-pair, tag and expiry checks), recording a trade and the provider
// statistics it drives, the top-providers ranking, adding tags, the filtered
// signal list, and the collaborative signal life cycle (Pending until every
// author approves).
//
// The signal map iterates in ascending id order and is held, as in `Expiry`, as
// the sequence of its entries in that order. The admin, tag-popularity and
// collaboration stores are separate objects passed to the operations that use
// them.

module Registry {
  import opened Base
  import opened RegistryTypes
  import opened Sorting
  import Assets
  import Categories
  import Admin
  import Performance
  import Collaboration
  import Expiry

  const MAX_EXPIRY_SECONDS: int := 30 * 24 * 60 * 60

  /** Why `create_signal_internal` stops: a returned error, or one of its two panics
      ("expiry must be in the future", "expiry exceeds max 30 days"). */
  datatype CreateError = Rejected(error: AdminError) | ExpiryNotInFuture | ExpiryTooFar

  /** The checks of `create_signal_internal`, in the order it makes them. */
  function CreateCheck(paused: bool, assetPair: Text, tags: seq<Text>, expiry: int, now: int): (r: Result<(), CreateError>)
    ensures paused ==> r == Err(Rejected(TradingPaused))
    ensures !paused && Assets.PairResult(assetPair).Err? ==> r == Err(Rejected(InvalidAssetPair))
    ensures !paused && Assets.PairResult(assetPair).Ok? && Categories.TagsResult(tags).Err? ==>
              r == Err(Rejected(InvalidParameter))
    ensures r.Ok? <==> && !paused && Assets.PairResult(assetPair).Ok? && Categories.TagsResult(tags).Ok?
                       && now < expiry <= now + MAX_EXPIRY_SECONDS
    ensures r.Err? && expiry <= now ==> r.error != ExpiryTooFar
  {
    if paused then Err(Rejected(TradingPaused))
    else if Assets.PairResult(assetPair).Err? then Err(Rejected(InvalidAssetPair))
    else if Categories.TagsResult(tags).Err? then Err(Rejected(InvalidParameter))
    else if expiry <= now then Err(ExpiryNotInFuture)
    else if expiry > now + MAX_EXPIRY_SECONDS then Err(ExpiryTooFar)
    else Ok(())
  }

  /** The record `create_signal_internal` stores: Active, no executions yet, tags
      de-duplicated, not collaborative. */
  function NewSignal(id: nat, provider: Address, assetPair: Text, action: SignalAction, price: int,
                     rationale: Text, expiry: int, category: SignalCategory, tags: seq<Text>,
                     riskLevel: RiskLevel, now: int): Signal
  {
    Signal(id, provider, assetPair, action, price, rationale, now, expiry, Active,
           0, 0, 0, 0, category, Categories.Dedup(tags), riskLevel, false)
  }

  /** A signal that passed the checks is live until its expiry, carries each of its
      tags once, reports an average ROI of 0, and keeps its status under the
      performance evaluation until it expires. */
  lemma NewSignalMeaning(id: nat, provider: Address, assetPair: Text, action: SignalAction, price: int,
                         rationale: Text, expiry: int, category: SignalCategory, tags: seq<Text>,
                         riskLevel: RiskLevel, now: int, later: int)
    requires CreateCheck(false, assetPair, tags, expiry, now).Ok?
    ensures var s := NewSignal(id, provider, assetPair, action, price, rationale, expiry, category, tags, riskLevel, now);
            && Expiry.Live(s, now)
            && NoDup(s.tags)
            && (forall t :: t in s.tags <==> t in tags)
            && Performance.AverageRoi(s) == 0
            && (later <= expiry ==> Performance.EvaluateSignalStatus(s, later) == Active)
            && (later > expiry ==> Performance.EvaluateSignalStatus(s, later) == Failed)
  {
    Categories.DedupDistinct(tags);
  }

  /** The trade record `record_trade_execution` builds. */
  function TradeOf(signal: Signal, executor: Address, entry: int, exit: int, volume: int, now: int): TradeExecution
    requires entry > 0
  {
    TradeExecution(signal.id, executor, entry, exit, volume, Performance.CalculateRoi(entry, exit, signal.action), now)
  }

  /** The signal after one recorded trade: the trade's counters added, then the
      status re-evaluated. */
  function Traded(signal: Signal, trade: TradeExecution, now: int): (s: Signal)
  {
    var updated := Performance.UpdateSignalStats(signal, trade);
    updated.(status := Performance.EvaluateSignalStatus(updated, now))
  }

  /** The provider statistics after a trade took `before` to `after`: the provider's
      record (a default one if missing) is rewritten only when the status changed
      into Successful or Failed. */
  function StatsAfter(stats: map<Address, ProviderPerformance>, before: Signal, after: Signal): map<Address, ProviderPerformance>
  {
    if Performance.ShouldUpdateProviderStats(before.status, after.status) then
      var p := if after.provider in stats then stats[after.provider] else DefaultPerformance;
      stats[after.provider := Performance.UpdateProviderPerformance(p, before.status, after.status,
                                                                    Performance.AverageRoi(after), after.totalVolume)]
    else stats
  }

  /** A trade adds one execution, its volume and its ROI to the signal and changes
      nothing else but the status. The provider statistics move only for the
      signal's provider, and only when the status changes into Successful or
      Failed; a record counts a new terminal signal only when it comes from
      Active or Pending (a Successful signal turning Failed writes the record back
      unchanged, or stores a default one). */
  lemma TradeMeaning(stats: map<Address, ProviderPerformance>, signal: Signal, trade: TradeExecution, now: int)
    ensures var s := Traded(signal, trade, now);
            && s.(status := signal.status) == Performance.UpdateSignalStats(signal, trade)
            && s.executions == signal.executions + 1
            && s.totalVolume == signal.totalVolume + trade.volume
            && s.totalRoi == signal.totalRoi + trade.roi
    ensures var s := Traded(signal, trade, now);
            var after := StatsAfter(stats, signal, s);
            && (forall p :: p != signal.provider ==> (p in after <==> p in stats) && (p in stats ==> after[p] == stats[p]))
            && (!Performance.ShouldUpdateProviderStats(signal.status, s.status) ==> after == stats)
            && (Performance.ShouldUpdateProviderStats(signal.status, s.status) ==> signal.provider in after)
    ensures var s := Traded(signal, trade, now);
            var after := StatsAfter(stats, signal, s);
            var p := if signal.provider in stats then stats[signal.provider] else DefaultPerformance;
            Performance.IsTerminalTransition(signal.status, s.status) ==>
              && after[signal.provider].totalSignals == p.totalSignals + 1
              && after[signal.provider].successfulSignals + after[signal.provider].failedSignals ==
                   p.successfulSignals + p.failedSignals + 1
              && after[signal.provider].totalVolume == p.totalVolume + s.totalVolume
    ensures var s := Traded(signal, trade, now);
            Performance.ShouldUpdateProviderStats(signal.status, s.status) && !Performance.IsTerminalTransition(signal.status, s.status) ==>
              StatsAfter(stats, signal, s)[signal.provider] == (if signal.provider in stats then stats[signal.provider] else DefaultPerformance)
  {
  }

  /** The sort key of `get_top_providers`: success rate, higher first. */
  function BySuccessRate(e: (Address, ProviderPerformance)): Rank { Rank(e.1.successRate, 0) }

  /** The first `n` entries of a listing sorted by success rate are distinct
      providers with their records, in non-increasing rate order, and no provider
      left out has a higher rate. */
  lemma TopProviders(m: map<Address, ProviderPerformance>, s: seq<(Address, ProviderPerformance)>, n: nat)
    requires Entries(m, s) && Ordered(s, BySuccessRate) && n <= |s|
    ensures var r := s[..n];
            && (forall i :: 0 <= i < |r| ==> r[i].0 in m && m[r[i].0] == r[i].1)
            && (forall i, j :: 0 <= i < j < |r| ==> r[i].0 != r[j].0)
            && (forall i, j :: 0 <= i < j < |r| ==> r[i].1.successRate >= r[j].1.successRate)
            && (forall p :: p in m && (forall i :: 0 <= i < |r| ==> r[i].0 != p) ==>
                  (forall i :: 0 <= i < |r| ==> m[p].successRate <= r[i].1.successRate))
  {
    TopPrefix(m, s, n, BySuccessRate);
    var r := s[..n];
    forall i, j | 0 <= i < j < |r|
      ensures r[i].1.successRate >= r[j].1.successRate
    {
      assert !Precedes(BySuccessRate(r[i]), BySuccessRate(r[j]));
    }
    forall p, i | p in m && (forall l :: 0 <= l < |r| ==> r[l].0 != p) && 0 <= i < |r|
      ensures m[p].successRate <= r[i].1.successRate
    {
      assert !Precedes(BySuccessRate(r[i]), BySuccessRate((p, m[p])));
    }
  }

  /** `add_tags_to_signal` on one signal: its checks, in order, and the new record. */
  function TagsAdded(signal: Signal, provider: Address, tags: seq<Text>): (r: Result<Signal, AdminError>)
    ensures signal.provider != provider ==> r == Err(Unauthorized)
    ensures signal.provider == provider && Categories.TagsResult(tags).Err? ==> r == Err(InvalidParameter)
    ensures r.Ok? <==> signal.provider == provider && Categories.TagsResult(tags).Ok? && |signal.tags| + |tags| <= Categories.MAX_TAGS
    ensures r.Ok? ==> r.value.(tags := signal.tags) == signal
  {
    if signal.provider != provider then Err(Unauthorized)
    else if Categories.TagsResult(tags).Err? then Err(InvalidParameter)
    else if |signal.tags| + |tags| > Categories.MAX_TAGS then Err(InvalidParameter)
    else Ok(signal.(tags := Categories.Dedup(signal.tags + tags)))
  }

  /** Added tags: each tag once, exactly the old and the new ones, at most ten, and
      a list that was already free of repeats keeps its order in front. */
  lemma TagsAddedMeaning(signal: Signal, provider: Address, tags: seq<Text>)
    requires TagsAdded(signal, provider, tags).Ok?
    ensures var t := TagsAdded(signal, provider, tags).value.tags;
            && NoDup(t)
            && (forall x :: x in t <==> x in signal.tags || x in tags)
            && |t| <= Categories.MAX_TAGS
            && (NoDup(signal.tags) ==> |signal.tags| <= |t| && t[..|signal.tags|] == signal.tags)
  {
    var t := TagsAdded(signal, provider, tags).value.tags;
    Categories.DedupDistinct(signal.tags + tags);
    if NoDup(signal.tags) {
      Categories.DedupPrefix(signal.tags, tags);
      Categories.DedupKeepsDistinct(signal.tags);
    }
  }

  // ---------------------------------------------------------------------------
  // `get_signals_filtered`

  /** Its first pass: Active and not yet expired. */
  function LiveAt(now: int): Signal -> bool
  {
    (s: Signal) => s.status == Active && s.expiry > now
  }

  function InCategories(categories: seq<SignalCategory>): Signal -> bool
  {
    (s: Signal) => s.category in categories
  }

  /** Some filter tag is among the signal's tags (compared byte for byte). */
  function HasAnyTag(tags: seq<Text>): Signal -> bool
  {
    (s: Signal) => exists t :: t in tags && t in s.tags
  }

  function InRiskLevels(levels: seq<RiskLevel>): Signal -> bool
  {
    (s: Signal) => s.riskLevel in levels
  }

  /** The passes of `get_signals_filtered`, each supplied filter applied in turn. */
  function Filtered(signals: seq<Signal>, categories: Option<seq<SignalCategory>>, tags: Option<seq<Text>>,
                    levels: Option<seq<RiskLevel>>, now: int): seq<Signal>
  {
    var live := Filter(signals, LiveAt(now));
    var byCategory := if categories.Some? then Filter(live, InCategories(categories.value)) else live;
    var byTag := if tags.Some? then Filter(byCategory, HasAnyTag(tags.value)) else byCategory;
    if levels.Some? then Filter(byTag, InRiskLevels(levels.value)) else byTag
  }

  /** A signal the filtered list shows: live, and passing every supplied filter. */
  predicate Wanted(s: Signal, categories: Option<seq<SignalCategory>>, tags: Option<seq<Text>>,
                   levels: Option<seq<RiskLevel>>, now: int)
  {
    && s.status == Active && s.expiry > now
    && (categories.Some? ==> s.category in categories.value)
    && (tags.Some? ==> exists t :: t in tags.value && t in s.tags)
    && (levels.Some? ==> s.riskLevel in levels.value)
  }

  function WantedBy(categories: Option<seq<SignalCategory>>, tags: Option<seq<Text>>,
                    levels: Option<seq<RiskLevel>>, now: int): Signal -> bool
  {
    (s: Signal) => Wanted(s, categories, tags, levels, now)
  }

  /** One optional pass after a filter by `p`: the same as one filter by `both`. */
  lemma OptionalPass(s: seq<Signal>, p: Signal -> bool, apply: bool, q: Signal -> bool, both: Signal -> bool)
    requires forall x :: both(x) == (p(x) && (apply ==> q(x)))
    ensures (if apply then Filter(Filter(s, p), q) else Filter(s, p)) == Filter(s, both)
  {
    if apply {
      FilterFilter(s, p, q, both);
    } else {
      FilterAll(Filter(s, p), both);
      FilterFilter(s, p, both, both);
    }
  }

  /** The tests of the first two passes, and of the first three, as one test each. */
  function LiveInCategories(categories: Option<seq<SignalCategory>>, now: int): Signal -> bool
  {
    (s: Signal) => s.status == Active && s.expiry > now && (categories.Some? ==> s.category in categories.value)
  }

  function LiveInCategoriesTagged(categories: Option<seq<SignalCategory>>, tags: Option<seq<Text>>, now: int): Signal -> bool
  {
    (s: Signal) => LiveInCategories(categories, now)(s) && (tags.Some? ==> exists t :: t in tags.value && t in s.tags)
  }

  lemma FirstTwoPasses(signals: seq<Signal>, categories: Option<seq<SignalCategory>>, now: int)
    ensures var live := Filter(signals, LiveAt(now));
            (if categories.Some? then Filter(live, InCategories(categories.value)) else live) ==
              Filter(signals, LiveInCategories(categories, now))
  {
    var cats := if categories.Some? then categories.value else [];
    OptionalPass(signals, LiveAt(now), categories.Some?, InCategories(cats), LiveInCategories(categories, now));
  }

  lemma ThirdPass(signals: seq<Signal>, categories: Option<seq<SignalCategory>>, tags: Option<seq<Text>>, now: int)
    ensures var before := Filter(signals, LiveInCategories(categories, now));
            (if tags.Some? then Filter(before, HasAnyTag(tags.value)) else before) ==
              Filter(signals, LiveInCategoriesTagged(categories, tags, now))
  {
    var filterTags := if tags.Some? then tags.value else [];
    OptionalPass(signals, LiveInCategories(categories, now), tags.Some?, HasAnyTag(filterTags),
                 LiveInCategoriesTagged(categories, tags, now));
  }

  lemma FourthPass(signals: seq<Signal>, categories: Option<seq<SignalCategory>>, tags: Option<seq<Text>>,
                   levels: Option<seq<RiskLevel>>, now: int)
    ensures var before := Filter(signals, LiveInCategoriesTagged(categories, tags, now));
            (if levels.Some? then Filter(before, InRiskLevels(levels.value)) else before) ==
              Filter(signals, WantedBy(categories, tags, levels, now))
  {
    var risks := if levels.Some? then levels.value else [];
    forall x ensures WantedBy(categories, tags, levels, now)(x) ==
                     (LiveInCategoriesTagged(categories, tags, now)(x) && (levels.Some? ==> InRiskLevels(risks)(x))) {
      assert LiveInCategoriesTagged(categories, tags, now)(x) ==
             (LiveInCategories(categories, now)(x) && (tags.Some? ==> exists t :: t in tags.value && t in x.tags));
    }
    OptionalPass(signals, LiveInCategoriesTagged(categories, tags, now), levels.Some?, InRiskLevels(risks),
                 WantedBy(categories, tags, levels, now));
  }

  /** The successive passes select, in store order, exactly the signals that meet
      every supplied filter at once. */
  lemma FilteredMeaning(signals: seq<Signal>, categories: Option<seq<SignalCategory>>, tags: Option<seq<Text>>,
                        levels: Option<seq<RiskLevel>>, now: int)
    ensures Filtered(signals, categories, tags, levels, now) == Filter(signals, WantedBy(categories, tags, levels, now))
    ensures forall s :: s in Filtered(signals, categories, tags, levels, now) <==> s in signals && Wanted(s, categories, tags, levels, now)
  {
    FirstTwoPasses(signals, categories, now);
    ThirdPass(signals, categories, tags, now);
    FourthPass(signals, categories, tags, levels, now);
    FilterMembers(signals, WantedBy(categories, tags, levels, now));
  }

  /** The page `[min(offset, n), min(offset + limit, n))` of a list of `n` entries. */
  function Window(s: seq<Signal>, offset: nat, limit: nat): (r: seq<Signal>)
    ensures offset >= |s| ==> r == []
    ensures offset < |s| ==> |r| == Min(limit, |s| - offset)
    ensures forall i :: 0 <= i < |r| ==> offset + i < |s| && r[i] == s[offset + i]
  {
    s[Min(offset, |s|)..Min(offset + limit, |s|)]
  }

  /** The tag pass's inner test: any filter tag among the signal's tags. */
  method HasTag(signalTags: seq<Text>, filter: seq<Text>) returns (found: bool)
    ensures found <==> exists t :: t in filter && t in signalTags
  {
    found := false;
    var j := 0;
    while j < |filter|
      invariant 0 <= j <= |filter|
      invariant !found ==> forall l :: 0 <= l < j ==> filter[l] !in signalTags
      invariant found ==> exists t :: t in filter && t in signalTags
    {
      var filterTag := filter[j];
      var k := 0;
      while k < |signalTags|
        invariant 0 <= k <= |signalTags|
        invariant !found ==> filterTag !in signalTags[..k]
        invariant found ==> filterTag in signalTags
      {
        assert signalTags[..k + 1] == signalTags[..k] + [signalTags[k]];
        if signalTags[k] == filterTag {
          found := true;
          break;
        }
        k := k + 1;
      }
      assert signalTags[..k] == signalTags || found;
      if found {
        assert filterTag in filter && filterTag in signalTags;
        break;
      }
      j := j + 1;
    }
    if !found {
      forall t | t in filter
        ensures t !in signalTags
      {
        var l :| 0 <= l < |filter| && filter[l] == t;
      }
    }
  }

  /** The first pass: Active signals not yet expired, in store order. */
  method CollectLive(signals: seq<Signal>, now: int) returns (filtered: seq<Signal>)
    ensures filtered == Filter(signals, LiveAt(now))
  {
    filtered := [];
    var i := 0;
    while i < |signals|
      invariant 0 <= i <= |signals|
      invariant filtered == Filter(signals[..i], LiveAt(now))
    {
      assert signals[..i + 1][..i] == signals[..i];
      var signal := signals[i];
      if signal.status == Active && signal.expiry > now {
        filtered := filtered + [signal];
      }
      i := i + 1;
    }
    assert signals[..i] == signals;
  }

  /** The category pass: the first matching category keeps the signal. */
  method FilterByCategory(list: seq<Signal>, categories: seq<SignalCategory>) returns (temp: seq<Signal>)
    ensures temp == Filter(list, InCategories(categories))
  {
    temp := [];
    var i := 0;
    while i < |list|
      invariant 0 <= i <= |list|
      invariant temp == Filter(list[..i], InCategories(categories))
    {
      assert list[..i + 1][..i] == list[..i];
      var signal := list[i];
      var j := 0;
      var kept := false;
      while j < |categories|
        invariant 0 <= j <= |categories|
        invariant !kept ==> forall l :: 0 <= l < j ==> categories[l] != signal.category
        invariant kept ==> signal.category in categories
      {
        if signal.category == categories[j] {
          kept := true;
          break;
        }
        j := j + 1;
      }
      if kept {
        temp := temp + [signal];
      }
      i := i + 1;
    }
    assert list[..i] == list;
  }

  /** The tag pass: a signal carrying any filter tag is kept. */
  method FilterByTags(list: seq<Signal>, tags: seq<Text>) returns (temp: seq<Signal>)
    ensures temp == Filter(list, HasAnyTag(tags))
  {
    temp := [];
    var i := 0;
    while i < |list|
      invariant 0 <= i <= |list|
      invariant temp == Filter(list[..i], HasAnyTag(tags))
    {
      assert list[..i + 1][..i] == list[..i];
      var signal := list[i];
      var hasTag := HasTag(signal.tags, tags);
      if hasTag {
        temp := temp + [signal];
      }
      i := i + 1;
    }
    assert list[..i] == list;
  }

  /** The risk pass: the first matching level keeps the signal. */
  method FilterByRisk(list: seq<Signal>, levels: seq<RiskLevel>) returns (temp: seq<Signal>)
    ensures temp == Filter(list, InRiskLevels(levels))
  {
    temp := [];
    var i := 0;
    while i < |list|
      invariant 0 <= i <= |list|
      invariant temp == Filter(list[..i], InRiskLevels(levels))
    {
      assert list[..i + 1][..i] == list[..i];
      var signal := list[i];
      var j := 0;
      var kept := false;
      while j < |levels|
        invariant 0 <= j <= |levels|
        invariant !kept ==> forall l :: 0 <= l < j ==> levels[l] != signal.riskLevel
        invariant kept ==> signal.riskLevel in levels
      {
        if signal.riskLevel == levels[j] {
          kept := true;
          break;
        }
        j := j + 1;
      }
      if kept {
        temp := temp + [signal];
      }
      i := i + 1;
    }
    assert list[..i] == list;
  }

  /** The passes of `get_signals_filtered`. */
  method ApplyFilters(signals: seq<Signal>, categories: Option<seq<SignalCategory>>, tags: Option<seq<Text>>,
                      levels: Option<seq<RiskLevel>>, now: int)
    returns (filtered: seq<Signal>)
    ensures filtered == Filtered(signals, categories, tags, levels, now)
  {
    filtered := CollectLive(signals, now);
    if categories.Some? {
      filtered := FilterByCategory(filtered, categories.value);
    }
    if tags.Some? {
      filtered := FilterByTags(filtered, tags.value);
    }
    if levels.Some? {
      filtered := FilterByRisk(filtered, levels.value);
    }
  }

  /** The pagination loop of `get_signals_filtered`. */
  method Paginate(filtered: seq<Signal>, offset: nat, limit: nat) returns (result: seq<Signal>)
    ensures result == Window(filtered, offset, limit)
  {
    var total := |filtered|;
    var start := Min(offset, total);
    var end := Min(offset + limit, total);
    result := [];
    var i := start;
    while i < end
      invariant start <= i <= end
      invariant result == filtered[start..i]
    {
      assert filtered[start..i + 1] == filtered[start..i] + [filtered[i]];
      result := result + [filtered[i]];
      i := i + 1;
    }
  }

  /** `get_signals_filtered` over the store's entries in key order. */
  method GetSignalsFiltered(signals: seq<Signal>, categories: Option<seq<SignalCategory>>, tags: Option<seq<Text>>,
                            levels: Option<seq<RiskLevel>>, offset: nat, limit: nat, now: int)
    returns (result: seq<Signal>)
    ensures result == Window(Filtered(signals, categories, tags, levels, now), offset, limit)
  {
    var filtered := ApplyFilters(signals, categories, tags, levels, now);
    result := Paginate(filtered, offset, limit);
  }

  /** A signal with the next id extends a store keyed by ids up to the counter. */
  lemma KeyedAppend(signals: seq<Signal>, s: Signal, counter: nat)
    requires Expiry.Keyed(signals) && forall i :: 0 <= i < |signals| ==> 1 <= signals[i].id <= counter
    requires s.id == counter + 1
    ensures Expiry.Keyed(signals + [s])
    ensures forall i :: 0 <= i < |signals + [s]| ==> 1 <= (signals + [s])[i].id <= counter + 1
  {
  }

  /** The tag-filter test: three signals, filtered by a tag only the first and
      third carry, come back as those two in id order; past the end nothing comes. */
  lemma FilteredExample(a: Signal, b: Signal, c: Signal, tag: Text, now: int)
    requires a.status == Active && b.status == Active && c.status == Active
    requires a.expiry > now && b.expiry > now && c.expiry > now
    requires tag in a.tags && tag !in b.tags && tag in c.tags
    ensures Window(Filtered([a, b, c], None, Some([tag]), None, now), 0, 10) == [a, c]
    ensures Window(Filtered([a, b, c], None, Some([tag]), None, now), 5, 10) == []
  {
    TagFilterExample(a, b, c, tag, now);
    var w := Window([a, c], 0, 10);
    assert |w| == 2 && w[0] == a && w[1] == c;
  }

  lemma TagFilterExample(a: Signal, b: Signal, c: Signal, tag: Text, now: int)
    requires a.status == Active && b.status == Active && c.status == Active
    requires a.expiry > now && b.expiry > now && c.expiry > now
    requires tag in a.tags && tag !in b.tags && tag in c.tags
    ensures Filtered([a, b, c], None, Some([tag]), None, now) == [a, c]
  {
    FilterAll([a, b, c], LiveAt(now));
    TagPassExample(a, b, c, tag);
  }

  lemma TagPassExample(a: Signal, b: Signal, c: Signal, tag: Text)
    requires tag in a.tags && tag !in b.tags && tag in c.tags
    ensures Filter([a, b, c], HasAnyTag([tag])) == [a, c]
  {
    assert [a, b, c][..2] == [a, b] && [a, b][..1] == [a] && [a][..0] == [];
    assert HasAnyTag([tag])(a) by { assert tag in [tag] && tag in a.tags; }
    assert HasAnyTag([tag])(c) by { assert tag in [tag] && tag in c.tags; }
    assert !HasAnyTag([tag])(b);
    assert Filter([a], HasAnyTag([tag])) == [a];
    assert Filter([a, b], HasAnyTag([tag])) == [a];
  }

  // ---------------------------------------------------------------------------
  // The registry state

  class SignalRegistry {
    /** `SignalCounter`: the last id handed out. */
    var signalCounter: nat
    /** `Signals`, in id order. */
    var signals: seq<Signal>
    /** `ProviderStats`. */
    var providerStats: map<Address, ProviderPerformance>

    constructor ()
      ensures Valid()
      ensures signalCounter == 0 && signals == [] && providerStats == map[]
    {
      signalCounter := 0;
      signals := [];
      providerStats := map[];
    }

    /** Ids strictly increase along the store, start at 1, and none is beyond the counter. */
    ghost predicate Valid()
      reads this
    {
      Expiry.Keyed(signals) && forall i :: 0 <= i < |signals| ==> 1 <= signals[i].id <= signalCounter
    }

    /** `get_signal`. */
    function GetSignal(id: nat): (r: Option<Signal>)
      reads this
      ensures r.None? <==> forall k :: 0 <= k < |signals| ==> signals[k].id != id
      ensures r.Some? ==> r.value in signals && r.value.id == id
    {
      match Expiry.FindSignal(signals, id)
      case None => None
      case Some(k) => Some(signals[k])
    }

    /** `next_signal_id`: the counter plus one, stored back. */
    method NextSignalId() returns (id: nat)
      modifies this
      ensures id == old(signalCounter) + 1 && signalCounter == id
      ensures signals == old(signals) && providerStats == old(providerStats)
    {
      var counter := signalCounter;
      counter := counter + 1;
      signalCounter := counter;
      id := counter;
    }

    /** The checks of `create_signal_internal`, giving the de-duplicated tags. */
    static method ValidateCreation(admin: Admin.AdminStore, assetPair: Text, tags: seq<Text>, expiry: int, now: int)
      returns (r: Result<seq<Text>, CreateError>)
      requires admin.Valid()
      modifies admin
      ensures admin.Valid()
      ensures admin.State() == old(admin.State()) || admin.State() == old(admin.State()).(pause := Admin.NOT_PAUSED)
      ensures var check := CreateCheck(Admin.PauseActive(old(admin.pause), now), assetPair, tags, expiry, now);
              && (check.Err? ==> r == Err(check.error))
              && (check.Ok? ==> r == Ok(Categories.Dedup(tags)))
    {
      var notPaused := admin.RequireNotPaused(now);
      if notPaused.Err? {
        return Err(Rejected(notPaused.error));
      }
      var pair := Assets.ValidateAssetPair(assetPair);
      if pair.Err? {
        return Err(Rejected(InvalidAssetPair));
      }
      var tagCheck := Categories.ValidateTags(tags);
      if tagCheck.Err? {
        return Err(Rejected(tagCheck.error));
      }
      var uniqueTags := Categories.DeduplicateTags(tags);
      if expiry <= now {
        return Err(ExpiryNotInFuture);
      }
      if expiry > now + MAX_EXPIRY_SECONDS {
        return Err(ExpiryTooFar);
      }
      r := Ok(uniqueTags);
    }

    /** `create_signal_internal` at time `now`. */
    method CreateSignalInternal(admin: Admin.AdminStore, tagStore: Categories.TagStore, provider: Address,
                                assetPair: Text, action: SignalAction, price: int, rationale: Text, expiry: int,
                                category: SignalCategory, tags: seq<Text>, riskLevel: RiskLevel, now: int)
      returns (r: Result<nat, CreateError>)
      requires Valid() && admin.Valid()
      modifies this, admin, tagStore
      ensures Valid() && admin.Valid()
      ensures admin.State() == old(admin.State()) || admin.State() == old(admin.State()).(pause := Admin.NOT_PAUSED)
      ensures var check := CreateCheck(Admin.PauseActive(old(admin.pause), now), assetPair, tags, expiry, now);
              && (check.Err? ==> r == Err(check.error))
              && (check.Ok? ==> r == Ok(old(signalCounter) + 1))
      ensures r.Err? ==> && signalCounter == old(signalCounter) && signals == old(signals)
                         && providerStats == old(providerStats) && tagStore.popularity == old(tagStore.popularity)
      ensures r.Ok? ==>
                && signalCounter == r.value
                && signals == old(signals) + [NewSignal(r.value, provider, assetPair, action, price, rationale, expiry,
                                                        category, tags, riskLevel, now)]
                && providerStats == (if provider in old(providerStats) then old(providerStats)
                                     else old(providerStats)[provider := DefaultPerformance])
                && tagStore.popularity == Categories.Bump(old(tagStore.popularity), Categories.Dedup(tags))
    {
      var checked := ValidateCreation(admin, assetPair, tags, expiry, now);
      if checked.Err? {
        return Err(checked.error);
      }
      var id := AddSignal(provider, assetPair, action, price, rationale, expiry, category, tags, riskLevel, now);
      tagStore.IncrementTagPopularity(checked.value);
      r := Ok(id);
    }

    /** The writes of `create_signal_internal` once the checks have passed: the
        signal under the next id, and a fresh record for a new provider. */
    method AddSignal(provider: Address, assetPair: Text, action: SignalAction, price: int, rationale: Text,
                     expiry: int, category: SignalCategory, tags: seq<Text>, riskLevel: RiskLevel, now: int)
      returns (id: nat)
      requires Valid()
      modifies this
      ensures Valid()
      ensures id == old(signalCounter) + 1 && signalCounter == id
      ensures signals == old(signals) + [NewSignal(id, provider, assetPair, action, price, rationale, expiry,
                                                   category, tags, riskLevel, now)]
      ensures providerStats == (if provider in old(providerStats) then old(providerStats)
                                else old(providerStats)[provider := DefaultPerformance])
    {
      id := NextSignalId();
      var signal := NewSignal(id, provider, assetPair, action, price, rationale, expiry, category, tags, riskLevel, now);
      KeyedAppend(signals, signal, id - 1);
      signals := signals + [signal];
      if provider !in providerStats {
        providerStats := providerStats[provider := DefaultPerformance];
      }
    }

    /** `record_trade_execution` at time `now`. */
    method RecordTradeExecution(executor: Address, signalId: nat, entry: int, exit: int, volume: int, now: int)
      returns (r: Result<(), PerformanceError>)
      requires Valid()
      modifies this
      ensures Valid()
      ensures signalCounter == old(signalCounter)
      ensures entry <= 0 || exit <= 0 ==> r == Err(InvalidPrice)
      ensures entry > 0 && exit > 0 && volume <= 0 ==> r == Err(InvalidVolume)
      ensures entry > 0 && exit > 0 && volume > 0 && old(GetSignal(signalId)).None? ==> r == Err(SignalNotFound)
      ensures r.Err? ==> signals == old(signals) && providerStats == old(providerStats)
      ensures r.Ok? <==> entry > 0 && exit > 0 && volume > 0 && old(GetSignal(signalId)).Some?
      ensures r.Ok? ==>
                var k := Expiry.FindSignal(old(signals), signalId).value;
                var before := old(signals)[k];
                var after := Traded(before, TradeOf(before, executor, entry, exit, volume, now), now);
                && signals == old(signals)[k := after]
                && providerStats == StatsAfter(old(providerStats), before, after)
    {
      if entry <= 0 || exit <= 0 {
        return Err(InvalidPrice);
      }
      if volume <= 0 {
        return Err(InvalidVolume);
      }
      var found := Expiry.FindSignal(signals, signalId);
      if found.None? {
        return Err(SignalNotFound);
      }
      var k := found.value;
      var signal := signals[k];
      var roi := Performance.CalculateRoi(entry, exit, signal.action);
      var trade := TradeExecution(signalId, executor, entry, exit, volume, roi, now);
      var oldStatus := signal.status;
      signal := Performance.UpdateSignalStats(signal, trade);
      var newStatus := Performance.EvaluateSignalStatus(signal, now);
      signal := signal.(status := newStatus);
      signals := signals[k := signal];
      if Performance.ShouldUpdateProviderStats(oldStatus, newStatus) {
        var stats := if signal.provider in providerStats then providerStats[signal.provider] else DefaultPerformance;
        var avg := Performance.AverageRoi(signal);
        stats := Performance.UpdateProviderPerformance(stats, oldStatus, newStatus, avg, signal.totalVolume);
        providerStats := providerStats[signal.provider := stats];
      }
      r := Ok(());
    }

    /** `get_top_providers`: the statistics sorted by success rate, highest first,
        cut to `limit`. The map's key order is not modelled: the entries are
        collected in an unspecified order before the sort. */
    method GetTopProviders(limit: nat) returns (result: seq<(Address, ProviderPerformance)>)
      ensures |result| == Min(limit, |providerStats|)
      ensures forall i :: 0 <= i < |result| ==> result[i].0 in providerStats && providerStats[result[i].0] == result[i].1
      ensures forall i, j :: 0 <= i < j < |result| ==> result[i].0 != result[j].0
      ensures forall i, j :: 0 <= i < j < |result| ==> result[i].1.successRate >= result[j].1.successRate
      ensures forall p :: p in providerStats && (forall i :: 0 <= i < |result| ==> result[i].0 != p) ==>
                (forall i :: 0 <= i < |result| ==> providerStats[p].successRate <= result[i].1.successRate)
    {
      var sorted := SortedEntries(providerStats, BySuccessRate);
      var n := Min(limit, |sorted|);
      TopProviders(providerStats, sorted, n);
      result := sorted[..n];
    }

    /** `add_tags_to_signal`: the new tags are counted in the popularity map as
        given, before de-duplication. */
    method AddTagsToSignal(tagStore: Categories.TagStore, provider: Address, signalId: nat, tags: seq<Text>)
      returns (r: Result<(), AdminError>)
      requires Valid()
      modifies this, tagStore
      ensures Valid()
      ensures signalCounter == old(signalCounter) && providerStats == old(providerStats)
      ensures old(GetSignal(signalId)).None? ==> r == Err(InvalidParameter)
      ensures old(GetSignal(signalId)).Some? && TagsAdded(old(GetSignal(signalId)).value, provider, tags).Err? ==>
                r == Err(TagsAdded(old(GetSignal(signalId)).value, provider, tags).error)
      ensures r.Err? ==> signals == old(signals) && tagStore.popularity == old(tagStore.popularity)
      ensures r.Ok? <==> old(GetSignal(signalId)).Some? && TagsAdded(old(GetSignal(signalId)).value, provider, tags).Ok?
      ensures r.Ok? ==>
                var k := Expiry.FindSignal(old(signals), signalId).value;
                && signals == old(signals)[k := TagsAdded(old(signals)[k], provider, tags).value]
                && tagStore.popularity == Categories.Bump(old(tagStore.popularity), tags)
    {
      var found := Expiry.FindSignal(signals, signalId);
      if found.None? {
        return Err(InvalidParameter);
      }
      var k := found.value;
      var signal := signals[k];
      if signal.provider != provider {
        return Err(Unauthorized);
      }
      var tagCheck := Categories.ValidateTags(tags);
      if tagCheck.Err? {
        return Err(tagCheck.error);
      }
      if |signal.tags| + |tags| > Categories.MAX_TAGS {
        return Err(InvalidParameter);
      }
      var combined := signal.tags + tags;
      var unique := Categories.DeduplicateTags(combined);
      signal := signal.(tags := unique);
      signals := signals[k := signal];
      tagStore.IncrementTagPopularity(tags);
      r := Ok(());
    }

    /** `create_collaborative_signal`: a created signal is marked collaborative and
        Pending before the authors are recorded. A failure in recording them is
        returned after the signal was stored. */
    method CreateCollaborativeSignal(admin: Admin.AdminStore, tagStore: Categories.TagStore,
                                     collab: Collaboration.CollaborationStore, primary: Address,
                                     coAuthors: seq<Address>, pcts: seq<nat>, assetPair: Text, action: SignalAction,
                                     price: int, rationale: Text, expiry: int, category: SignalCategory,
                                     tags: seq<Text>, riskLevel: RiskLevel, now: int)
      returns (r: Result<nat, CreateError>)
      requires Valid() && admin.Valid()
      modifies this, admin, tagStore, collab
      ensures Valid() && admin.Valid()
      ensures var check := CreateCheck(Admin.PauseActive(old(admin.pause), now), assetPair, tags, expiry, now);
              && (check.Err? ==> r == Err(check.error) && signals == old(signals)
                                 && collab.collaborations == old(collab.collaborations))
              && (check.Ok? && Collaboration.NewAuthors(primary, coAuthors, pcts).Err? ==>
                    r == Err(Rejected(Collaboration.NewAuthors(primary, coAuthors, pcts).error))
                    && collab.collaborations == old(collab.collaborations))
              && (check.Ok? && Collaboration.NewAuthors(primary, coAuthors, pcts).Ok? ==>
                    r == Ok(old(signalCounter) + 1))
              && (check.Ok? ==>
                    signals == old(signals) + [NewSignal(old(signalCounter) + 1, primary, assetPair, action, price,
                                                         rationale, expiry, category, tags, riskLevel, now)
                                                 .(isCollaborative := true, status := Pending)])
      ensures r.Ok? ==>
                && r.value == old(signalCounter) + 1
                && Collaboration.NewAuthors(primary, coAuthors, pcts).Ok?
                && collab.collaborations == old(collab.collaborations)[r.value := Collaboration.NewAuthors(primary, coAuthors, pcts).value]
    {
      var created := CreateSignalInternal(admin, tagStore, primary, assetPair, action, price, rationale, expiry,
                                          category, tags, riskLevel, now);
      if created.Err? {
        return created;
      }
      var id := created.value;
      MarkCollaborative();
      var recorded := collab.CreateCollaborativeSignal(id, primary, coAuthors, pcts);
      if recorded.Err? {
        return Err(Rejected(recorded.error));
      }
      r := Ok(id);
    }

    /** The newest signal is stored again as a collaborative one awaiting approval. */
    method MarkCollaborative()
      requires Valid() && |signals| > 0
      modifies this
      ensures Valid()
      ensures signals == old(signals)[..|old(signals)| - 1]
                         + [old(signals)[|old(signals)| - 1].(isCollaborative := true, status := Pending)]
      ensures signalCounter == old(signalCounter) && providerStats == old(providerStats)
    {
      var k := |signals| - 1;
      var signal := signals[k];
      signal := signal.(isCollaborative := true, status := Pending);
      signals := signals[k := signal];
      assert signals == old(signals)[..k] + [signal];
    }

    /** `approve_collaborative_signal`: once every author has approved, the signal
        is published as Active. */
    method ApproveCollaborativeSignal(collab: Collaboration.CollaborationStore, signalId: nat, approver: Address)
      returns (r: Result<(), AdminError>)
      requires Valid()
      modifies this, collab
      ensures Valid()
      ensures signalCounter == old(signalCounter) && providerStats == old(providerStats)
      ensures signalId !in old(collab.collaborations) ==> r == Err(InvalidParameter) && signals == old(signals)
      ensures signalId in old(collab.collaborations) ==>
                var approved := Collaboration.Approve(old(collab.collaborations)[signalId], approver);
                && (approved.Err? ==> r == Err(approved.error) && signals == old(signals)
                                      && collab.collaborations == old(collab.collaborations))
                && (approved.Ok? ==> collab.collaborations == old(collab.collaborations)[signalId := approved.value])
                && (approved.Ok? && !Collaboration.AllApproved(approved.value) ==> r == Ok(()) && signals == old(signals))
                && (approved.Ok? && Collaboration.AllApproved(approved.value) && old(GetSignal(signalId)).None? ==>
                      r == Err(InvalidParameter) && signals == old(signals))
                && (approved.Ok? && Collaboration.AllApproved(approved.value) && old(GetSignal(signalId)).Some? ==>
                      var k := Expiry.FindSignal(old(signals), signalId).value;
                      r == Ok(()) && signals == old(signals)[k := old(signals)[k].(status := Active)])
    {
      var allApproved := collab.ApproveCollaborativeSignal(signalId, approver);
      if allApproved.Err? {
        return Err(allApproved.error);
      }
      if allApproved.value {
        var found := Expiry.FindSignal(signals, signalId);
        if found.None? {
          return Err(InvalidParameter);
        }
        var k := found.value;
        var signal := signals[k];
        signal := signal.(status := Active);
        signals := signals[k := signal];
      }
      r := Ok(());
    }
  }
}
