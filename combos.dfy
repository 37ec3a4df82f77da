// Combo signals: a provider bundles up to ten of their active signals with
// weights that split a trade amount, run them together, in sequence, or gated
// on the outcome of an earlier component, and keeps a history of executions.

module Combos {
  import opened Base
  import RegistryTypes

  const MAX_COMPONENTS: nat := 10
  const WEIGHT_TOTAL: nat := 10000

  datatype ComboError =
    | NoComponents
    | TooManyComponents
    | SignalNotFound
    | NotSignalOwner
    | SignalNotActive
    | WeightOverflow
    | InvalidWeights
    | InvalidConditionReference
    | ComboNotFound
    | ComboNotActive
    | InvalidAmount
    | ComponentSignalExpired

  datatype ComboType = Simultaneous | Sequential | Conditional

  datatype ConditionType = Success | Failure | RoiAbove(threshold: int)

  datatype Condition = Condition(dependsOn: nat, conditionType: ConditionType)

  /** A component: a signal, its share of the amount in basis points, and an optional gate. */
  datatype ComponentSignal = ComponentSignal(signalId: nat, weight: nat, condition: Option<Condition>)

  datatype ComboStatus = Active | Cancelled | Completed

  datatype ComboSignal = ComboSignal(
    id: nat,
    name: RegistryTypes.Text,
    provider: Address,
    componentSignals: seq<ComponentSignal>,
    comboType: ComboType,
    status: ComboStatus,
    createdAt: int)

  datatype ComponentExecution = ComponentExecution(signalId: nat, amount: int, skipped: bool, roi: int)

  datatype ComboExecution = ComboExecution(
    comboId: nat,
    executor: Address,
    totalAmount: int,
    componentExecutions: seq<ComponentExecution>,
    combinedRoi: int,
    executedAt: int)

  datatype ComboPerformanceSummary = ComboPerformanceSummary(comboId: nat, totalExecutions: nat, combinedRoi: int, totalVolume: int)

  type Signals = map<nat, RegistryTypes.Signal>

  // ---------------------------------------------------------------------------
  // Creation

  /** The per-component checks of `create_combo_signal`, in component order: the
      running u32 weight total, or the first component's failure. */
  function CheckComponents(signals: Signals, provider: Address, comps: seq<ComponentSignal>): Result<nat, ComboError>
  {
    if comps == [] then Ok(0)
    else
      match CheckComponents(signals, provider, comps[..|comps| - 1])
      case Err(e) => Err(e)
      case Ok(total) =>
        var c := comps[|comps| - 1];
        if c.signalId !in signals then Err(SignalNotFound)
        else if signals[c.signalId].provider != provider then Err(NotSignalOwner)
        else if signals[c.signalId].status != RegistryTypes.Active then Err(SignalNotActive)
        else if total + c.weight > U32_MAX then Err(WeightOverflow)
        else Ok(total + c.weight)
  }

  function SumWeights(comps: seq<ComponentSignal>): nat
  {
    if comps == [] then 0 else SumWeights(comps[..|comps| - 1]) + comps[|comps| - 1].weight
  }

  predicate Usable(signals: Signals, provider: Address, c: ComponentSignal)
  {
    c.signalId in signals && signals[c.signalId].provider == provider && signals[c.signalId].status == RegistryTypes.Active
  }

  /** Every gate names a signal of the combo. */
  predicate ConditionsValid(comps: seq<ComponentSignal>)
  {
    forall i :: 0 <= i < |comps| && comps[i].condition.Some? ==>
      exists j :: 0 <= j < |comps| && comps[j].signalId == comps[i].condition.value.dependsOn
  }

  /** What `create_combo_signal` decides, in the order it checks. */
  function CreateOutcome(signals: Signals, provider: Address, comps: seq<ComponentSignal>, comboType: ComboType): Result<(), ComboError>
  {
    if comps == [] then Err(NoComponents)
    else if |comps| > MAX_COMPONENTS then Err(TooManyComponents)
    else match CheckComponents(signals, provider, comps)
      case Err(e) => Err(e)
      case Ok(total) =>
        if total != WEIGHT_TOTAL then Err(InvalidWeights)
        else if comboType == Conditional && !ConditionsValid(comps) then Err(InvalidConditionReference)
        else Ok(())
  }

  // ---------------------------------------------------------------------------
  // Execution

  /** `simulate_trade_roi`: the signal's average ROI, or 0. */
  function SimulateTradeRoi(signals: Signals, signalId: nat): int
  {
    if signalId in signals && signals[signalId].executions > 0
    then Quot(signals[signalId].totalRoi, signals[signalId].executions)
    else 0
  }

  /** The first component checked at execution time that is missing or expired. */
  function ExpiryCheck(signals: Signals, comps: seq<ComponentSignal>, now: int): Result<(), ComboError>
  {
    if comps == [] then Ok(())
    else if comps[0].signalId !in signals then Err(SignalNotFound)
    else if signals[comps[0].signalId].expiry <= now then Err(ComponentSignalExpired)
    else ExpiryCheck(signals, comps[1..], now)
  }

  /** The index of the first earlier execution of `signalId`, or `|prev|`. */
  function FirstExecution(prev: seq<ComponentExecution>, signalId: nat, from: nat): (k: nat)
    requires from <= |prev|
    ensures from <= k <= |prev| && (k < |prev| ==> prev[k].signalId == signalId)
    ensures forall m :: from <= m < k ==> prev[m].signalId != signalId
    decreases |prev| - from
  {
    if from == |prev| || prev[from].signalId == signalId then from else FirstExecution(prev, signalId, from + 1)
  }

  predicate ConditionHolds(t: ConditionType, roi: int)
  {
    match t
    case Success => roi > 0
    case Failure => roi <= 0
    case RoiAbove(threshold) => roi > threshold
  }

  /** `evaluate_condition`: an ungated component runs; a gated one runs when the first
      earlier execution of the signal it depends on ran and meets the condition. */
  predicate ConditionMet(comp: ComponentSignal, prev: seq<ComponentExecution>)
  {
    match comp.condition
    case None => true
    case Some(c) =>
      var k := FirstExecution(prev, c.dependsOn, 0);
      k < |prev| && !prev[k].skipped && ConditionHolds(c.conditionType, prev[k].roi)
  }

  /** The execution record of one component after the earlier ones. */
  function Step(comboType: ComboType, comp: ComponentSignal, prev: seq<ComponentExecution>, total: int, signals: Signals): ComponentExecution
  {
    if comboType != Conditional || ConditionMet(comp, prev)
    then ComponentExecution(comp.signalId, Share(total, comp.weight), false, SimulateTradeRoi(signals, comp.signalId))
    else ComponentExecution(comp.signalId, 0, true, 0)
  }

  /** The component executions of a combo, in component order. */
  function RunAll(comboType: ComboType, comps: seq<ComponentSignal>, total: int, signals: Signals): (r: seq<ComponentExecution>)
    ensures |r| == |comps|
  {
    if comps == [] then []
    else
      var prev := RunAll(comboType, comps[..|comps| - 1], total, signals);
      prev + [Step(comboType, comps[|comps| - 1], prev, total, signals)]
  }

  predicate Contributes(e: ComponentExecution) { !e.skipped && e.amount > 0 }

  /** The saturating `Σ roi*amount` over contributing executions. */
  function WeightedSum(execs: seq<ComponentExecution>): (s: int)
    ensures InI128(s)
  {
    if execs == [] then 0
    else
      var e := execs[|execs| - 1];
      var s := WeightedSum(execs[..|execs| - 1]);
      if Contributes(e) then SatI128(s + SatI128(e.roi * e.amount)) else s
  }

  /** The saturating `Σ amount` over contributing executions. */
  function ExecutedAmount(execs: seq<ComponentExecution>): (a: int)
    ensures 0 <= a <= I128_MAX
  {
    if execs == [] then 0
    else
      var e := execs[|execs| - 1];
      var a := ExecutedAmount(execs[..|execs| - 1]);
      if Contributes(e) then SatI128(a + e.amount) else a
  }

  /** `calculate_combined_roi`. */
  function CombinedRoi(execs: seq<ComponentExecution>, total: int): int
  {
    if total == 0 || ExecutedAmount(execs) == 0 then 0
    else Quot(WeightedSum(execs), ExecutedAmount(execs))
  }

  predicate AllSkipped(execs: seq<ComponentExecution>)
  {
    forall i :: 0 <= i < |execs| ==> execs[i].skipped
  }

  /** The exact sums that the saturating ones compute when nothing overflows. */
  function ExactWeighted(execs: seq<ComponentExecution>): int
  {
    if execs == [] then 0
    else ExactWeighted(execs[..|execs| - 1]) + (if Contributes(execs[|execs| - 1]) then execs[|execs| - 1].roi * execs[|execs| - 1].amount else 0)
  }

  function ExactAmount(execs: seq<ComponentExecution>): int
  {
    if execs == [] then 0
    else ExactAmount(execs[..|execs| - 1]) + (if Contributes(execs[|execs| - 1]) then execs[|execs| - 1].amount else 0)
  }

  /** No running sum and no product leaves the i128 range. */
  predicate NoSaturation(execs: seq<ComponentExecution>)
  {
    && (forall k :: 0 <= k <= |execs| ==> InI128(ExactWeighted(execs[..k])) && InI128(ExactAmount(execs[..k])))
    && (forall i :: 0 <= i < |execs| ==> InI128(execs[i].roi * execs[i].amount))
  }

  function SumAmounts(execs: seq<ComponentExecution>): int
  {
    if execs == [] then 0 else SumAmounts(execs[..|execs| - 1]) + execs[|execs| - 1].amount
  }

  // ---------------------------------------------------------------------------
  // Performance summary

  function SumCombinedRoi(h: seq<ComboExecution>): (s: int)
    ensures InI128(s)
  {
    if h == [] then 0 else SatI128(SumCombinedRoi(h[..|h| - 1]) + h[|h| - 1].combinedRoi)
  }

  function SumTotalAmount(h: seq<ComboExecution>): (s: int)
    ensures InI128(s)
  {
    if h == [] then 0 else SatI128(SumTotalAmount(h[..|h| - 1]) + h[|h| - 1].totalAmount)
  }

  /** `get_combo_performance` of an existing combo with history `h`. */
  function Performance(comboId: nat, h: seq<ComboExecution>): ComboPerformanceSummary
  {
    if h == [] then ComboPerformanceSummary(comboId, 0, 0, 0)
    else ComboPerformanceSummary(comboId, |h|, Quot(SumCombinedRoi(h), |h|), SumTotalAmount(h))
  }

  // ---------------------------------------------------------------------------
  // Implementation

  /** `evaluate_condition`. */
  method EvaluateCondition(comp: ComponentSignal, previous: seq<ComponentExecution>) returns (b: bool)
    ensures b == ConditionMet(comp, previous)
  {
    if comp.condition.None? {
      return true;
    }
    var cond := comp.condition.value;
    var dep: Option<ComponentExecution> := None;
    var i := 0;
    while i < |previous|
      invariant 0 <= i <= |previous|
      invariant forall m :: 0 <= m < i ==> previous[m].signalId != cond.dependsOn
    {
      if previous[i].signalId == cond.dependsOn {
        dep := Some(previous[i]);
        break;
      }
      i := i + 1;
    }
    assert FirstExecution(previous, cond.dependsOn, 0) == i;
    if dep.None? {
      return false;
    }
    if dep.value.skipped {
      return false;
    }
    b := match cond.conditionType
      case Success => dep.value.roi > 0
      case Failure => dep.value.roi <= 0
      case RoiAbove(threshold) => dep.value.roi > threshold;
  }

  /** `calculate_combined_roi`. */
  method CalculateCombinedRoi(executions: seq<ComponentExecution>, totalAmount: int) returns (r: int)
    ensures r == CombinedRoi(executions, totalAmount)
  {
    if totalAmount == 0 {
      return 0;
    }
    var weightedSum := 0;
    var executedAmount := 0;
    var i := 0;
    while i < |executions|
      invariant 0 <= i <= |executions|
      invariant weightedSum == WeightedSum(executions[..i]) && executedAmount == ExecutedAmount(executions[..i])
    {
      var e := executions[i];
      if !e.skipped && e.amount > 0 {
        weightedSum := SatI128(weightedSum + SatI128(e.roi * e.amount));
        executedAmount := SatI128(executedAmount + e.amount);
      }
      assert executions[..i + 1][..i] == executions[..i];
      i := i + 1;
    }
    assert executions[..i] == executions;
    if executedAmount == 0 {
      return 0;
    }
    r := Quot(weightedSum, executedAmount);
  }

  /** The registry's combos and their execution histories. */
  class ComboStore {
    var counter: nat
    var combos: map<nat, ComboSignal>
    var executions: map<nat, seq<ComboExecution>>

    constructor ()
      ensures counter == 0 && combos == map[] && executions == map[]
    {
      counter := 0;
      combos := map[];
      executions := map[];
    }

    function History(comboId: nat): seq<ComboExecution>
      reads this
    {
      if comboId in executions then executions[comboId] else []
    }

    /** `create_combo_signal`. */
    method CreateComboSignal(signals: Signals, provider: Address, name: RegistryTypes.Text, components: seq<ComponentSignal>,
                             comboType: ComboType, now: int) returns (r: Result<nat, ComboError>)
      requires counter < U64_MAX
      modifies this
      ensures r.Err? <==> CreateOutcome(signals, provider, components, comboType).Err?
      ensures r.Err? ==> r.error == CreateOutcome(signals, provider, components, comboType).error
      ensures r.Err? ==> combos == old(combos) && counter == old(counter)
      ensures r.Ok? ==>
                && r.value == old(counter) + 1 && counter == r.value
                && combos == old(combos)[r.value := ComboSignal(r.value, name, provider, components, comboType, Active, now)]
      ensures executions == old(executions)
    {
      if |components| == 0 {
        return Err(NoComponents);
      }
      if |components| > MAX_COMPONENTS {
        return Err(TooManyComponents);
      }
      var checked := ValidateComponents(signals, provider, components);
      if checked.Err? {
        return Err(checked.error);
      }
      if checked.value != WEIGHT_TOTAL {
        return Err(InvalidWeights);
      }
      if comboType == Conditional {
        var referencesOk := ConditionReferencesKnown(components);
        if !referencesOk {
          return Err(InvalidConditionReference);
        }
      }
      counter := counter + 1;
      var comboId := counter;
      combos := combos[comboId := ComboSignal(comboId, name, provider, components, comboType, Active, now)];
      r := Ok(comboId);
    }

    /** The per-component checks of `create_combo_signal`: every signal exists, belongs
        to the provider and is Active, and the u32 weight total does not overflow. */
    static method ValidateComponents(signals: Signals, provider: Address, components: seq<ComponentSignal>)
      returns (r: Result<nat, ComboError>)
      ensures r == CheckComponents(signals, provider, components)
    {
      var totalWeight := 0;
      var i := 0;
      while i < |components|
        invariant 0 <= i <= |components|
        invariant CheckComponents(signals, provider, components[..i]) == Ok(totalWeight)
      {
        var comp := components[i];
        assert components[..i + 1][..i] == components[..i];
        if comp.signalId !in signals {
          ChecksFail(signals, provider, components, i + 1);
          return Err(SignalNotFound);
        }
        var signal := signals[comp.signalId];
        if signal.provider != provider {
          ChecksFail(signals, provider, components, i + 1);
          return Err(NotSignalOwner);
        }
        if signal.status != RegistryTypes.Active {
          ChecksFail(signals, provider, components, i + 1);
          return Err(SignalNotActive);
        }
        if totalWeight + comp.weight > U32_MAX {
          ChecksFail(signals, provider, components, i + 1);
          return Err(WeightOverflow);
        }
        totalWeight := totalWeight + comp.weight;
        i := i + 1;
      }
      assert components[..i] == components;
      r := Ok(totalWeight);
    }

    /** The reference check of a conditional combo: every condition names a
        component of the same combo. */
    static method ConditionReferencesKnown(components: seq<ComponentSignal>) returns (ok: bool)
      ensures ok <==> ConditionsValid(components)
    {
      var componentIds: seq<nat> := [];
      var k := 0;
      while k < |components|
        invariant 0 <= k <= |components|
        invariant |componentIds| == k && forall m :: 0 <= m < k ==> componentIds[m] == components[m].signalId
      {
        componentIds := componentIds + [components[k].signalId];
        k := k + 1;
      }
      k := 0;
      while k < |components|
        invariant 0 <= k <= |components|
        invariant forall m :: 0 <= m < k && components[m].condition.Some? ==>
                    exists j :: 0 <= j < |components| && components[j].signalId == components[m].condition.value.dependsOn
      {
        if components[k].condition.Some? {
          var cond := components[k].condition.value;
          var found := false;
          var j := 0;
          while j < |componentIds|
            invariant 0 <= j <= |componentIds|
            invariant !found && forall m :: 0 <= m < j ==> componentIds[m] != cond.dependsOn
          {
            if componentIds[j] == cond.dependsOn {
              found := true;
              break;
            }
            j := j + 1;
          }
          if !found {
            assert !ConditionsValid(components) by {
              assert 0 <= k < |components| && components[k].condition.Some?;
            }
            return false;
          }
        }
        k := k + 1;
      }
      ok := true;
    }

    /** `execute_combo_signal`. */
    method ExecuteComboSignal(signals: Signals, comboId: nat, user: Address, totalAmount: int, now: int)
      returns (r: Result<seq<ComponentExecution>, ComboError>)
      modifies this
      ensures comboId !in old(combos) ==> r == Err(ComboNotFound)
      ensures comboId in old(combos) && old(combos)[comboId].status != Active ==> r == Err(ComboNotActive)
      ensures comboId in old(combos) && old(combos)[comboId].status == Active && totalAmount <= 0 ==> r == Err(InvalidAmount)
      ensures comboId in old(combos) && old(combos)[comboId].status == Active && totalAmount > 0 ==>
                var combo := old(combos)[comboId];
                match ExpiryCheck(signals, combo.componentSignals, now)
                case Err(e) => r == Err(e)
                case Ok(_) =>
                  var execs := RunAll(combo.comboType, combo.componentSignals, totalAmount, signals);
                  && r == Ok(execs)
                  && executions == old(executions)[comboId := old(History(comboId)) +
                       [ComboExecution(comboId, user, totalAmount, execs, CombinedRoi(execs, totalAmount), now)]]
                  && combos == (if AllSkipped(execs) then old(combos)[comboId := combo.(status := Completed)] else old(combos))
      ensures r.Err? ==> combos == old(combos) && executions == old(executions)
      ensures counter == old(counter)
    {
      if comboId !in combos {
        return Err(ComboNotFound);
      }
      var combo := combos[comboId];
      if combo.status != Active {
        return Err(ComboNotActive);
      }
      if totalAmount <= 0 {
        return Err(InvalidAmount);
      }
      var comps := combo.componentSignals;
      var live := ComponentsLive(signals, comps, now);
      if live.Err? {
        return Err(live.error);
      }
      var componentExecutions := RunComponents(combo.comboType, comps, totalAmount, signals);
      var combinedRoi := CalculateCombinedRoi(componentExecutions, totalAmount);
      var execution := ComboExecution(comboId, user, totalAmount, componentExecutions, combinedRoi, now);
      executions := executions[comboId := History(comboId) + [execution]];
      var all := AllComponentsSkipped(componentExecutions);
      if all {
        combos := combos[comboId := combo.(status := Completed)];
      }
      r := Ok(componentExecutions);
    }

    /** The expiry loop of `execute_combo_signal`: the first component whose signal
        is missing or expired stops the call. */
    static method ComponentsLive(signals: Signals, comps: seq<ComponentSignal>, now: int) returns (r: Result<(), ComboError>)
      ensures r == ExpiryCheck(signals, comps, now)
    {
      var i := 0;
      while i < |comps|
        invariant 0 <= i <= |comps|
        invariant ExpiryCheck(signals, comps, now) == ExpiryCheck(signals, comps[i..], now)
      {
        assert comps[i..][1..] == comps[i + 1..] && comps[i..][0] == comps[i];
        if comps[i].signalId in signals {
          if signals[comps[i].signalId].expiry <= now {
            return Err(ComponentSignalExpired);
          }
        } else {
          return Err(SignalNotFound);
        }
        i := i + 1;
      }
      assert comps[i..] == [];
      r := Ok(());
    }

    /** The execution loop of `execute_combo_signal`: each component, in order, runs
        with its share of the amount or is skipped when its condition fails. */
    static method RunComponents(comboType: ComboType, comps: seq<ComponentSignal>, totalAmount: int, signals: Signals)
      returns (componentExecutions: seq<ComponentExecution>)
      ensures componentExecutions == RunAll(comboType, comps, totalAmount, signals)
    {
      componentExecutions := [];
      var i := 0;
      while i < |comps|
        invariant 0 <= i <= |comps|
        invariant componentExecutions == RunAll(comboType, comps[..i], totalAmount, signals)
      {
        var comp := comps[i];
        var run := true;
        if comboType == Conditional {
          run := EvaluateCondition(comp, componentExecutions);
        }
        var e: ComponentExecution;
        if run {
          var amount := Quot(totalAmount * comp.weight, WEIGHT_TOTAL);
          e := ComponentExecution(comp.signalId, amount, false, SimulateTradeRoi(signals, comp.signalId));
        } else {
          e := ComponentExecution(comp.signalId, 0, true, 0);
        }
        assert comps[..i + 1][..i] == comps[..i];
        componentExecutions := componentExecutions + [e];
        i := i + 1;
      }
      assert comps[..i] == comps;
    }

    /** The completion check of `execute_combo_signal`: whether every component was skipped. */
    static method AllComponentsSkipped(componentExecutions: seq<ComponentExecution>) returns (all: bool)
      ensures all <==> AllSkipped(componentExecutions)
    {
      all := true;
      var i := 0;
      while i < |componentExecutions|
        invariant 0 <= i <= |componentExecutions|
        invariant all <==> forall m :: 0 <= m < i ==> componentExecutions[m].skipped
      {
        if !componentExecutions[i].skipped {
          all := false;
          break;
        }
        i := i + 1;
      }
    }

    /** `cancel_combo`. */
    method CancelCombo(comboId: nat, provider: Address) returns (r: Result<(), ComboError>)
      modifies this
      ensures comboId !in old(combos) ==> r == Err(ComboNotFound)
      ensures comboId in old(combos) && old(combos)[comboId].provider != provider ==> r == Err(NotSignalOwner)
      ensures comboId in old(combos) && old(combos)[comboId].provider == provider && old(combos)[comboId].status != Active ==>
                r == Err(ComboNotActive)
      ensures comboId in old(combos) && old(combos)[comboId].provider == provider && old(combos)[comboId].status == Active ==>
                r == Ok(())
      ensures r.Err? ==> combos == old(combos)
      ensures r.Ok? ==> comboId in old(combos) && old(combos)[comboId].status == Active &&
                        combos == old(combos)[comboId := old(combos)[comboId].(status := Cancelled)]
      ensures counter == old(counter) && executions == old(executions)
    {
      if comboId !in combos {
        return Err(ComboNotFound);
      }
      var combo := combos[comboId];
      if combo.provider != provider {
        return Err(NotSignalOwner);
      }
      if combo.status != Active {
        return Err(ComboNotActive);
      }
      combos := combos[comboId := combo.(status := Cancelled)];
      r := Ok(());
    }

    /** `get_combo_performance`. */
    method GetComboPerformance(comboId: nat) returns (r: Option<ComboPerformanceSummary>)
      ensures r.None? <==> comboId !in combos
      ensures r.Some? ==> r.value == Performance(comboId, History(comboId))
    {
      if comboId !in combos {
        return None;
      }
      var execs := History(comboId);
      if |execs| == 0 {
        return Some(ComboPerformanceSummary(comboId, 0, 0, 0));
      }
      var totalRoi := 0;
      var totalVolume := 0;
      var i := 0;
      while i < |execs|
        invariant 0 <= i <= |execs|
        invariant totalRoi == SumCombinedRoi(execs[..i]) && totalVolume == SumTotalAmount(execs[..i])
      {
        totalRoi := SatI128(totalRoi + execs[i].combinedRoi);
        totalVolume := SatI128(totalVolume + execs[i].totalAmount);
        assert execs[..i + 1][..i] == execs[..i];
        i := i + 1;
      }
      assert execs[..i] == execs;
      r := Some(ComboPerformanceSummary(comboId, |execs|, Quot(totalRoi, |execs|), totalVolume));
    }
  }

  // ---------------------------------------------------------------------------
  // Properties

  /** Once a component check fails, the checks of every longer prefix fail the same way. */
  lemma {:induction false} ChecksFail(signals: Signals, provider: Address, comps: seq<ComponentSignal>, n: nat)
    requires n <= |comps| && CheckComponents(signals, provider, comps[..n]).Err?
    ensures CheckComponents(signals, provider, comps) == CheckComponents(signals, provider, comps[..n])
    decreases |comps| - n
  {
    if n < |comps| {
      assert comps[..n + 1][..n] == comps[..n];
      ChecksFail(signals, provider, comps, n + 1);
    } else {
      assert comps[..n] == comps;
    }
  }

  /** The component checks pass exactly when every component is usable and no running
      total exceeds u32; the total is then the sum of the weights. */
  lemma {:induction false} ChecksMeaning(signals: Signals, provider: Address, comps: seq<ComponentSignal>)
    ensures CheckComponents(signals, provider, comps).Ok? <==>
              (forall i :: 0 <= i < |comps| ==> Usable(signals, provider, comps[i])) && SumWeights(comps) <= U32_MAX
    ensures CheckComponents(signals, provider, comps).Ok? ==> CheckComponents(signals, provider, comps).value == SumWeights(comps)
  {
    if comps != [] {
      var init := comps[..|comps| - 1];
      ChecksMeaning(signals, provider, init);
      assert forall i :: 0 <= i < |init| ==> init[i] == comps[i];
    }
  }

  /** A combo is created exactly when it has 1 to 10 components, all usable signals
      of the provider, whose weights total 10000, and, for a conditional combo, whose
      gates all name one of its own signals. */
  lemma CreateMeaning(signals: Signals, provider: Address, comps: seq<ComponentSignal>, comboType: ComboType)
    ensures CreateOutcome(signals, provider, comps, comboType).Ok? <==>
              && 1 <= |comps| <= MAX_COMPONENTS
              && (forall i :: 0 <= i < |comps| ==> Usable(signals, provider, comps[i]))
              && SumWeights(comps) == WEIGHT_TOTAL
              && (comboType == Conditional ==> ConditionsValid(comps))
    ensures comps == [] ==> CreateOutcome(signals, provider, comps, comboType) == Err(NoComponents)
    ensures |comps| > MAX_COMPONENTS ==> CreateOutcome(signals, provider, comps, comboType) == Err(TooManyComponents)
  {
    ChecksMeaning(signals, provider, comps);
  }

  /** Execution records: the prefix of a run is the run of the prefix. */
  lemma {:induction false} RunAllPrefix(comboType: ComboType, comps: seq<ComponentSignal>, total: int, signals: Signals, k: nat)
    requires k <= |comps|
    ensures RunAll(comboType, comps[..k], total, signals) == RunAll(comboType, comps, total, signals)[..k]
    decreases |comps| - k
  {
    if k < |comps| {
      RunAllPrefix(comboType, comps[..|comps| - 1], total, signals, k);
      assert comps[..|comps| - 1][..k] == comps[..k];
    } else {
      assert comps[..k] == comps;
    }
  }

  /** The record of component `i` is decided from the records before it. */
  lemma RunAllAt(comboType: ComboType, comps: seq<ComponentSignal>, total: int, signals: Signals, i: nat)
    requires i < |comps|
    ensures var r := RunAll(comboType, comps, total, signals);
            r[i] == Step(comboType, comps[i], r[..i], total, signals)
  {
    var r := RunAll(comboType, comps, total, signals);
    RunAllPrefix(comboType, comps, total, signals, i + 1);
    RunAllPrefix(comboType, comps, total, signals, i);
    var p := comps[..i + 1];
    assert p[..|p| - 1] == comps[..i] && p[|p| - 1] == comps[i];
    assert r[..i + 1][..i] == r[..i];
  }

  /** One record per component, in order, each decided from the records before it:
      an ungated component, and every component outside a conditional combo, runs
      with its share of the amount; a skipped one moves nothing and earns nothing. */
  lemma RunAllMeaning(comboType: ComboType, comps: seq<ComponentSignal>, total: int, signals: Signals, i: nat)
    requires i < |comps|
    ensures var r := RunAll(comboType, comps, total, signals);
            && r[i] == Step(comboType, comps[i], r[..i], total, signals)
            && r[i].signalId == comps[i].signalId
            && (r[i].skipped <==> comboType == Conditional && !ConditionMet(comps[i], r[..i]))
            && (comps[i].condition.None? ==> !r[i].skipped)
            && (r[i].skipped ==> r[i].amount == 0 && r[i].roi == 0)
            && (!r[i].skipped ==> r[i].amount == Share(total, comps[i].weight) && r[i].roi == SimulateTradeRoi(signals, comps[i].signalId))
  {
    RunAllAt(comboType, comps, total, signals, i);
  }

  /** For a positive amount the component amounts never add up to more than the
      weights allow: `Σ amount * 10000 <= total * Σ weight`. */
  lemma {:induction false} AmountsBounded(comboType: ComboType, comps: seq<ComponentSignal>, total: int, signals: Signals)
    requires total > 0
    ensures SumAmounts(RunAll(comboType, comps, total, signals)) * WEIGHT_TOTAL <= total * SumWeights(comps)
  {
    if comps != [] {
      var init := comps[..|comps| - 1];
      var c := comps[|comps| - 1];
      AmountsBounded(comboType, init, total, signals);
      var prev := RunAll(comboType, init, total, signals);
      var r := RunAll(comboType, comps, total, signals);
      assert r[..|r| - 1] == prev;
      var e := Step(comboType, c, prev, total, signals);
      assert SumAmounts(r) == SumAmounts(prev) + e.amount;
      StepAmountBound(comboType, c, prev, total, signals);
      assert SumWeights(comps) == SumWeights(init) + c.weight;
      MulAddRight(total, SumWeights(init), c.weight);
      MulAddLeft(SumAmounts(prev), e.amount, WEIGHT_TOTAL);
    }
  }

  /** One component's amount is at most its weighted share of the total. */
  lemma StepAmountBound(comboType: ComboType, c: ComponentSignal, prev: seq<ComponentExecution>, total: int, signals: Signals)
    requires total > 0
    ensures Step(comboType, c, prev, total, signals).amount * WEIGHT_TOTAL <= total * c.weight
  {
    QuotNonNegative(total * c.weight, WEIGHT_TOTAL);
    assert Share(total, c.weight) * WEIGHT_TOTAL <= total * c.weight;
  }

  lemma MulAddRight(x: int, a: int, b: int)
    ensures x * (a + b) == x * a + x * b
  {
  }

  lemma MulAddLeft(a: int, b: int, x: int)
    ensures (a + b) * x == a * x + b * x
  {
  }

  /** With weights totalling 10000, the amounts spent add up to at most the total. */
  lemma AmountsWithinTotal(comboType: ComboType, comps: seq<ComponentSignal>, total: int, signals: Signals)
    requires total > 0 && SumWeights(comps) == WEIGHT_TOTAL
    ensures SumAmounts(RunAll(comboType, comps, total, signals)) <= total
  {
    AmountsBounded(comboType, comps, total, signals);
  }

  /** Without a conditional gate nothing is skipped, so such a combo never completes. */
  lemma UngatedNeverCompletes(comboType: ComboType, comps: seq<ComponentSignal>, total: int, signals: Signals)
    requires comboType != Conditional && comps != []
    ensures !AllSkipped(RunAll(comboType, comps, total, signals))
  {
    RunAllMeaning(comboType, comps, total, signals, 0);
  }

  lemma {:induction false} ExactSums(execs: seq<ComponentExecution>)
    requires NoSaturation(execs)
    ensures WeightedSum(execs) == ExactWeighted(execs) && ExecutedAmount(execs) == ExactAmount(execs)
  {
    if execs != [] {
      var init := execs[..|execs| - 1];
      assert NoSaturation(init) by {
        forall k | 0 <= k <= |init|
          ensures InI128(ExactWeighted(init[..k])) && InI128(ExactAmount(init[..k]))
        {
          assert init[..k] == execs[..k];
        }
      }
      ExactSums(init);
      assert execs[..|execs|] == execs;
    }
  }

  lemma MulMono(a: int, b: int, c: int)
    requires a <= b && c >= 0
    ensures a * c <= b * c
  {
    assert b * c - a * c == (b - a) * c;
  }

  lemma {:induction false} ExactBounds(execs: seq<ComponentExecution>, lo: int, hi: int)
    requires forall i :: 0 <= i < |execs| && Contributes(execs[i]) ==> lo <= execs[i].roi <= hi
    ensures lo * ExactAmount(execs) <= ExactWeighted(execs) <= hi * ExactAmount(execs)
    ensures ExactAmount(execs) >= 0
  {
    if execs != [] {
      var init := execs[..|execs| - 1];
      var e := execs[|execs| - 1];
      ExactBounds(init, lo, hi);
      if Contributes(e) {
        MulMono(lo, e.roi, e.amount);
        MulMono(e.roi, hi, e.amount);
        assert lo * ExactAmount(execs) == lo * ExactAmount(init) + lo * e.amount;
        assert hi * ExactAmount(execs) == hi * ExactAmount(init) + hi * e.amount;
      }
    }
  }

  /** When no sum saturates, the combined ROI is the amount-weighted mean ROI of the
      executions that ran, truncated, and lies between their smallest and largest ROI;
      with nothing run it is 0. */
  lemma CombinedRoiMeaning(execs: seq<ComponentExecution>, total: int, lo: int, hi: int)
    requires total > 0 && NoSaturation(execs)
    requires forall i :: 0 <= i < |execs| && Contributes(execs[i]) ==> lo <= execs[i].roi <= hi
    ensures ExactAmount(execs) == 0 ==> CombinedRoi(execs, total) == 0
    ensures ExactAmount(execs) != 0 ==>
              && CombinedRoi(execs, total) == Quot(ExactWeighted(execs), ExactAmount(execs))
              && lo <= CombinedRoi(execs, total) <= hi
  {
    ExactSums(execs);
    ExactBounds(execs, lo, hi);
    if ExactAmount(execs) != 0 {
      QuotBetween(ExactWeighted(execs), ExactAmount(execs), lo, hi);
    }
  }

  /** Each execution adds one to the summary's count; the summary of an empty history
      is all zeros. */
  lemma PerformanceCounts(comboId: nat, h: seq<ComboExecution>, e: ComboExecution)
    ensures Performance(comboId, h + [e]).totalExecutions == Performance(comboId, h).totalExecutions + 1
    ensures Performance(comboId, []) == ComboPerformanceSummary(comboId, 0, 0, 0)
    ensures (forall i :: 0 <= i < |h| ==> h[i].combinedRoi >= 0) && h != [] ==>
              Performance(comboId, h).combinedRoi >= 0
  {
    if (forall i :: 0 <= i < |h| ==> h[i].combinedRoi >= 0) && h != [] {
      SumNonNegative(h);
      QuotNonNegative(SumCombinedRoi(h), |h|);
    }
  }

  lemma {:induction false} SumNonNegative(h: seq<ComboExecution>)
    requires forall i :: 0 <= i < |h| ==> h[i].combinedRoi >= 0
    ensures SumCombinedRoi(h) >= 0
  {
    if h != [] {
      SumNonNegative(h[..|h| - 1]);
    }
  }

  /** A 50/50 combo run with 1_000_000 gives each component 500_000; shares round down. */
  lemma ShareExample()
    ensures Share(1_000_000, 5000) == 500_000
    ensures Share(999, 3333) == 332
  {
  }
}
