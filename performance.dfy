// Signal and provider performance: the ROI of one trade in basis points, the
// per-signal counters a trade adds to, the status a signal's average ROI
// earns, and the provider statistics a terminal status change updates.
// `&mut` updates of these value records are functions returning the new record.

module Performance {
  import opened Base
  import opened RegistryTypes

  const BASIS_POINTS_100_PERCENT: int := 10000
  const SUCCESS_THRESHOLD_BPS: int := 200
  const FAILURE_THRESHOLD_BPS: int := -500
  const MIN_ROI_BPS: int := -10000
  const U32_MODULUS: int := 0x1_0000_0000

  /** The price move in the signal's favour. */
  function PriceDiff(entry: int, exit: int, action: SignalAction): int
  {
    match action
    case Buy => exit - entry
    case Sell => entry - exit
  }

  /** The ROI before the -100% floor: the favourable move over the entry price, truncated. */
  function RawRoi(entry: int, exit: int, action: SignalAction): int
    requires entry != 0
  {
    Quot(PriceDiff(entry, exit, action) * BASIS_POINTS_100_PERCENT, entry)
  }

  /** `calculate_roi`; a zero entry price panics, so it is excluded. */
  function CalculateRoi(entry: int, exit: int, action: SignalAction): (roi: int)
    requires entry != 0
    ensures roi >= MIN_ROI_BPS
    ensures RawRoi(entry, exit, action) >= MIN_ROI_BPS ==> roi == RawRoi(entry, exit, action)
    ensures RawRoi(entry, exit, action) < MIN_ROI_BPS ==> roi == MIN_ROI_BPS
  {
    var roi := Quot(PriceDiff(entry, exit, action) * BASIS_POINTS_100_PERCENT, entry);
    if roi < MIN_ROI_BPS then MIN_ROI_BPS else roi
  }

  /** `update_signal_stats`: one more execution, its volume and its ROI added. */
  function UpdateSignalStats(signal: Signal, trade: TradeExecution): Signal
  {
    signal.(executions := signal.executions + 1,
            totalVolume := signal.totalVolume + trade.volume,
            totalRoi := signal.totalRoi + trade.roi)
  }

  /** `get_signal_average_roi`. */
  function AverageRoi(signal: Signal): (avg: int)
    ensures signal.executions == 0 ==> avg == 0
  {
    if signal.executions == 0 then 0 else Quot(signal.totalRoi, signal.executions)
  }

  /** `evaluate_signal_status`. */
  function EvaluateSignalStatus(signal: Signal, now: int): (r: SignalStatus)
    ensures signal.executions == 0 && signal.expiry < now ==> r == Failed
    ensures signal.executions == 0 && signal.expiry >= now ==> r == signal.status
    ensures signal.executions > 0 ==>
              && (r == Successful <==> AverageRoi(signal) > SUCCESS_THRESHOLD_BPS)
              && (r == Failed <==> AverageRoi(signal) < FAILURE_THRESHOLD_BPS)
              && (r == Active <==> FAILURE_THRESHOLD_BPS <= AverageRoi(signal) <= SUCCESS_THRESHOLD_BPS)
  {
    if signal.expiry < now && signal.executions == 0 then Failed
    else if signal.executions == 0 then signal.status
    else
      var avg := Quot(signal.totalRoi, signal.executions);
      if avg > SUCCESS_THRESHOLD_BPS then Successful
      else if avg < FAILURE_THRESHOLD_BPS then Failed
      else Active
  }

  /** The transitions `update_provider_performance` acts on. */
  predicate IsTerminalTransition(oldStatus: SignalStatus, newStatus: SignalStatus)
  {
    (oldStatus == Active || oldStatus == Pending) && (newStatus == Successful || newStatus == Failed)
  }

  /** The rolling mean with the source's overflow fallbacks: an overflowing product
      counts as 0, an overflowing sum keeps the old total. */
  function RollingAverage(avg: int, n: nat, roi: int): int
    requires n > 0
  {
    var oldTotal := if InI128(avg * (n - 1)) then avg * (n - 1) else 0;
    var newTotal := if InI128(oldTotal + roi) then oldTotal + roi else oldTotal;
    Quot(newTotal, n)
  }

  /** `update_provider_performance`. */
  function UpdateProviderPerformance(p: ProviderPerformance, oldStatus: SignalStatus, newStatus: SignalStatus,
                                     signalRoi: int, signalVolume: int): ProviderPerformance
  {
    if !IsTerminalTransition(oldStatus, newStatus) then p
    else
      var total := p.totalSignals + 1;
      var successful := if newStatus == Successful then p.successfulSignals + 1 else p.successfulSignals;
      var failed := if newStatus == Failed then p.failedSignals + 1 else p.failedSignals;
      var rate := (successful * BASIS_POINTS_100_PERCENT / total) % U32_MODULUS;
      p.(totalSignals := total, successfulSignals := successful, failedSignals := failed,
         successRate := rate, avgReturn := RollingAverage(p.avgReturn, total, signalRoi),
         totalVolume := p.totalVolume + signalVolume)
  }

  /** `should_update_provider_stats`. */
  predicate ShouldUpdateProviderStats(oldStatus: SignalStatus, newStatus: SignalStatus)
  {
    oldStatus != newStatus && (newStatus == Successful || newStatus == Failed)
  }

  /** Provider statistics that only this module's update has written. */
  predicate ProviderSane(p: ProviderPerformance)
  {
    p.successfulSignals + p.failedSignals <= p.totalSignals && p.successRate <= BASIS_POINTS_100_PERCENT
  }

  /** A signal's trades, applied in order. */
  function ApplyTrades(signal: Signal, trades: seq<TradeExecution>): Signal
  {
    if trades == [] then signal else UpdateSignalStats(ApplyTrades(signal, trades[..|trades| - 1]), trades[|trades| - 1])
  }

  function SumVolume(trades: seq<TradeExecution>): int
  {
    if trades == [] then 0 else SumVolume(trades[..|trades| - 1]) + trades[|trades| - 1].volume
  }

  function SumRoi(trades: seq<TradeExecution>): int
  {
    if trades == [] then 0 else SumRoi(trades[..|trades| - 1]) + trades[|trades| - 1].roi
  }

  // ---------------------------------------------------------------------------
  // Properties

  /** A sell's ROI is exactly the negated ROI of a buy at the same prices (before the floor). */
  lemma SellMirrorsBuy(entry: int, exit: int)
    requires entry != 0
    ensures RawRoi(entry, exit, Sell) == -RawRoi(entry, exit, Buy)
  {
    assert PriceDiff(entry, exit, Sell) * BASIS_POINTS_100_PERCENT == -(PriceDiff(entry, exit, Buy) * BASIS_POINTS_100_PERCENT);
    QuotNeg(PriceDiff(entry, exit, Buy) * BASIS_POINTS_100_PERCENT, entry);
  }

  /** With a positive entry price the sign of the ROI is the sign of the favourable move. */
  lemma RoiSign(entry: int, exit: int, action: SignalAction)
    requires entry > 0
    ensures PriceDiff(entry, exit, action) > 0 ==> CalculateRoi(entry, exit, action) >= 0
    ensures PriceDiff(entry, exit, action) == 0 ==> CalculateRoi(entry, exit, action) == 0
    ensures PriceDiff(entry, exit, action) < 0 ==> CalculateRoi(entry, exit, action) <= 0
  {
    var d := PriceDiff(entry, exit, action) * BASIS_POINTS_100_PERCENT;
    assert RawRoi(entry, exit, action) == Quot(d, entry);
    if d >= 0 {
      QuotNonNegative(d, entry);
    } else {
      QuotNonNegative(-d, entry);
      QuotNeg(-d, entry);
    }
  }

  /** A buy with a non-negative exit price never reaches the -100% floor. */
  lemma BuyNeverFloored(entry: int, exit: int)
    requires entry > 0 && exit >= 0
    ensures CalculateRoi(entry, exit, Buy) == RawRoi(entry, exit, Buy)
  {
    var d := (exit - entry) * BASIS_POINTS_100_PERCENT;
    assert RawRoi(entry, exit, Buy) == Quot(d, entry);
    if d >= 0 {
      QuotNonNegative(d, entry);
    } else {
      assert -10000 * entry <= d;
      QuotBetween(d, entry, -10000, 0);
    }
  }

  /** The ROI tests: 100 to 105 is +5%, 100 to 98 is -2%, a sell from 100 to 95 is +5%,
      and a buy falling to 0 is floored at -100%. */
  lemma RoiExamples()
    ensures CalculateRoi(100, 105, Buy) == 500
    ensures CalculateRoi(100, 98, Buy) == -200
    ensures CalculateRoi(100, 95, Sell) == 500
    ensures CalculateRoi(100, 0, Buy) == -10000
  {
  }

  /** Trades applied one after another add their count, volumes and ROIs and change nothing else. */
  lemma {:induction false} TradesAccumulate(signal: Signal, trades: seq<TradeExecution>)
    ensures var s := ApplyTrades(signal, trades);
            && s.executions == signal.executions + |trades|
            && s.totalVolume == signal.totalVolume + SumVolume(trades)
            && s.totalRoi == signal.totalRoi + SumRoi(trades)
            && s.(executions := signal.executions, totalVolume := signal.totalVolume, totalRoi := signal.totalRoi) == signal
  {
    if trades != [] {
      TradesAccumulate(signal, trades[..|trades| - 1]);
    }
  }

  /** When every trade's ROI is within bounds, so is the average (in particular the
      average of floored ROIs is never below -100%). */
  lemma AverageRoiWithin(signal: Signal, lo: int, hi: int)
    requires signal.executions > 0
    requires lo * signal.executions <= signal.totalRoi <= hi * signal.executions
    ensures lo <= AverageRoi(signal) <= hi
  {
    QuotBetween(signal.totalRoi, signal.executions, lo, hi);
  }

  /** A trade ROI sum of floored ROIs keeps the -100% bound. */
  lemma {:induction false} SumRoiFloor(trades: seq<TradeExecution>)
    requires forall i :: 0 <= i < |trades| ==> trades[i].roi >= MIN_ROI_BPS
    ensures SumRoi(trades) >= MIN_ROI_BPS * |trades|
  {
    if trades != [] {
      var init := trades[..|trades| - 1];
      assert forall i :: 0 <= i < |init| ==> init[i] == trades[i];
      SumRoiFloor(init);
    }
  }

  /** The rolling mean stays between the old average and the new ROI, when nothing overflows. */
  lemma RollingAverageWithin(avg: int, n: nat, roi: int)
    requires n > 0 && InI128(avg * (n - 1)) && InI128(avg * (n - 1) + roi)
    ensures Min(avg, roi) <= RollingAverage(avg, n, roi) <= Max(avg, roi)
  {
    var lo, hi := Min(avg, roi), Max(avg, roi);
    AccumulateWithin(lo, hi, 0, 0, avg, n - 1);
    AccumulateWithin(lo, hi, avg * (n - 1), n - 1, roi, 1);
    QuotBetween(avg * (n - 1) + roi, n, lo, hi);
  }

  /** Only a move from Active or Pending into Successful or Failed touches the provider's
      statistics: it adds one signal, one success or one failure, recomputes the success
      rate (at most 100%) and the rolling mean, and adds the signal's volume. */
  lemma ProviderUpdateEffect(p: ProviderPerformance, oldStatus: SignalStatus, newStatus: SignalStatus, roi: int, volume: int)
    requires ProviderSane(p)
    ensures var q := UpdateProviderPerformance(p, oldStatus, newStatus, roi, volume);
            && ProviderSane(q)
            && (!IsTerminalTransition(oldStatus, newStatus) ==> q == p)
            && (IsTerminalTransition(oldStatus, newStatus) ==>
                  && q.totalSignals == p.totalSignals + 1
                  && q.successfulSignals + q.failedSignals == p.successfulSignals + p.failedSignals + 1
                  && (q.successfulSignals == p.successfulSignals + 1 <==> newStatus == Successful)
                  && q.successRate == q.successfulSignals * BASIS_POINTS_100_PERCENT / q.totalSignals
                  && q.totalVolume == p.totalVolume + volume
                  && q.totalCopies == p.totalCopies)
  {
    if IsTerminalTransition(oldStatus, newStatus) {
      var q := UpdateProviderPerformance(p, oldStatus, newStatus, roi, volume);
      var x := q.successfulSignals * BASIS_POINTS_100_PERCENT;
      assert x <= BASIS_POINTS_100_PERCENT * q.totalSignals;
      QuotBetween(x, q.totalSignals, 0, BASIS_POINTS_100_PERCENT);
      QuotNonNegative(x, q.totalSignals);
    }
  }

  /** Every transition `update_provider_performance` acts on is one the registry asks to
      update for, and for signals still Active or Pending the two notions coincide. */
  lemma TerminalTransitionsAreUpdates(oldStatus: SignalStatus, newStatus: SignalStatus)
    ensures IsTerminalTransition(oldStatus, newStatus) ==> ShouldUpdateProviderStats(oldStatus, newStatus)
    ensures (oldStatus == Active || oldStatus == Pending) ==>
              (ShouldUpdateProviderStats(oldStatus, newStatus) <==> IsTerminalTransition(oldStatus, newStatus))
    ensures ShouldUpdateProviderStats(Successful, Failed) && !IsTerminalTransition(Successful, Failed)
  {
  }
}
