// Provider stakes: staking adds to a provider's locked amount, unstaking pays the
// whole amount out once seven days have passed since the provider's last signal,
// and signal submission requires a minimum stake.
//
// The source panics on every failure; each panic message is an error constructor
// here.

module Stake {
  import opened Base

  const DEFAULT_MINIMUM_STAKE: int := 100_000_000
  const UNSTAKE_LOCK_PERIOD: int := 7 * 24 * 60 * 60

  datatype StakeInfo = StakeInfo(amount: int, lastSignalTime: int)

  const NO_STAKE: StakeInfo := StakeInfo(0, 0)

  datatype StakeError =
    | NonPositiveAmount   // "Stake amount must be positive"
    | Overflow            // `info.amount += amount` leaving i128
    | NoStakeFound        // "No stake found"
    | Locked              // "Stake is locked until 7 days after last signal"
    | NothingStaked       // "No staked funds to withdraw"
    | InsufficientStake   // "Insufficient stake to submit signal"

  type Stakes = map<Address, StakeInfo>

  /** `get_stake`: an unknown provider reads as (0, 0). */
  function GetStake(stakes: Stakes, provider: Address): (info: StakeInfo)
    ensures provider !in stakes ==> info == NO_STAKE
    ensures provider in stakes ==> info == stakes[provider]
  {
    if provider in stakes then stakes[provider] else NO_STAKE
  }

  /** `stake`: the provider's amount grows by exactly `amount`. */
  function StakeInto(stakes: Stakes, provider: Address, amount: int): (r: Result<Stakes, StakeError>)
    ensures amount <= 0 ==> r == Err(NonPositiveAmount)
    ensures r.Ok? ==> r.value == stakes[provider := GetStake(stakes, provider).(amount := GetStake(stakes, provider).amount + amount)]
    ensures amount > 0 && InI128(GetStake(stakes, provider).amount + amount) ==> r.Ok?
  {
    if amount <= 0 then Err(NonPositiveAmount)
    else
      var info := GetStake(stakes, provider);
      if !InI128(info.amount + amount) then Err(Overflow)
      else Ok(stakes[provider := info.(amount := info.amount + amount)])
  }

  /** `unstake`: the new store and the amount paid out. */
  function UnstakeFrom(stakes: Stakes, provider: Address, now: int): (r: Result<(Stakes, int), StakeError>)
    ensures provider !in stakes ==> r == Err(NoStakeFound)
    ensures provider in stakes && now < stakes[provider].lastSignalTime + UNSTAKE_LOCK_PERIOD ==> r == Err(Locked)
    ensures provider in stakes && now >= stakes[provider].lastSignalTime + UNSTAKE_LOCK_PERIOD && stakes[provider].amount <= 0 ==>
              r == Err(NothingStaked)
    ensures r.Ok? ==> provider in stakes && r.value.1 == stakes[provider].amount > 0
    ensures r.Ok? ==> r.value.0 == stakes[provider := stakes[provider].(amount := 0)]
  {
    if provider !in stakes then Err(NoStakeFound)
    else
      var info := stakes[provider];
      if now < info.lastSignalTime + UNSTAKE_LOCK_PERIOD then Err(Locked)
      else if info.amount <= 0 then Err(NothingStaked)
      else Ok((stakes[provider := info.(amount := 0)], info.amount))
  }

  /** `verify_stake`. */
  function VerifyStake(stakes: Stakes, provider: Address, minimumStake: int): (r: Result<(), StakeError>)
    ensures r.Ok? <==> provider in stakes && stakes[provider].amount >= minimumStake
    ensures provider !in stakes ==> r == Err(NoStakeFound)
    ensures provider in stakes && stakes[provider].amount < minimumStake ==> r == Err(InsufficientStake)
  {
    if provider !in stakes then Err(NoStakeFound)
    else if stakes[provider].amount < minimumStake then Err(InsufficientStake)
    else Ok(())
  }

  /** `update_last_signal_time`. */
  function UpdateLastSignalTime(stakes: Stakes, provider: Address, now: int): (r: Result<Stakes, StakeError>)
    ensures provider !in stakes ==> r == Err(NoStakeFound)
    ensures r.Ok? ==> provider in stakes && r.value == stakes[provider := stakes[provider].(lastSignalTime := now)]
  {
    if provider !in stakes then Err(NoStakeFound)
    else Ok(stakes[provider := stakes[provider].(lastSignalTime := now)])
  }

  /** Staking and then unstaking once the lock has passed pays out everything the
      provider had plus the new amount, leaves a zero amount, and keeps the last
      signal time. Other providers are untouched. */
  lemma StakeThenUnstake(stakes: Stakes, provider: Address, amount: int, now: int)
    requires StakeInto(stakes, provider, amount).Ok?
    requires GetStake(stakes, provider).amount >= 0
    requires now >= GetStake(stakes, provider).lastSignalTime + UNSTAKE_LOCK_PERIOD
    ensures var after := StakeInto(stakes, provider, amount).value;
            var info := GetStake(stakes, provider);
            UnstakeFrom(after, provider, now) == Ok((stakes[provider := info.(amount := 0)], info.amount + amount))
    ensures forall p :: p != provider ==> GetStake(StakeInto(stakes, provider, amount).value, p) == GetStake(stakes, p)
  {
    var info := GetStake(stakes, provider);
    var after := StakeInto(stakes, provider, amount).value;
    assert after[provider] == info.(amount := info.amount + amount);
    assert after[provider := after[provider].(amount := 0)] == stakes[provider := info.(amount := 0)];
  }

  /** A payout empties the stake: unstaking again fails with NothingStaked, and the
      provider no longer passes any positive minimum. A signal restarts the lock. */
  lemma UnstakeEmpties(stakes: Stakes, provider: Address, now: int, later: int, minimum: int)
    requires UnstakeFrom(stakes, provider, now).Ok?
    requires later >= now && minimum > 0
    ensures var after := UnstakeFrom(stakes, provider, now).value.0;
            && UnstakeFrom(after, provider, later) == Err(NothingStaked)
            && VerifyStake(after, provider, minimum) == Err(InsufficientStake)
    ensures UpdateLastSignalTime(stakes, provider, now).Ok?
    ensures UnstakeFrom(UpdateLastSignalTime(stakes, provider, now).value, provider, now) == Err(Locked)
  {
  }

  /** The stake-and-unstake test: 100 XLM staked at time 0 is locked until day 7
      and then paid out in full. */
  lemma StakeExample(provider: Address)
    ensures StakeInto(map[], provider, 100_000_000) == Ok(map[provider := StakeInfo(100_000_000, 0)])
    ensures UnstakeFrom(map[provider := StakeInfo(100_000_000, 0)], provider, 0) == Err(Locked)
    ensures UnstakeFrom(map[provider := StakeInfo(100_000_000, 0)], provider, 604800) ==
              Ok((map[provider := StakeInfo(0, 0)], 100_000_000))
  {
    var m := map[provider := StakeInfo(100_000_000, 0)];
    assert m[provider := m[provider].(amount := 0)] == map[provider := StakeInfo(0, 0)];
  }

  /** The stake store. */
  class StakeRegistry {
    var stakes: Stakes

    constructor ()
      ensures stakes == map[]
    {
      stakes := map[];
    }

    /** `stake`. */
    method StakeFunds(provider: Address, amount: int) returns (r: Result<(), StakeError>)
      modifies this
      ensures StakeInto(old(stakes), provider, amount).Err? ==>
                r == Err(StakeInto(old(stakes), provider, amount).error) && stakes == old(stakes)
      ensures StakeInto(old(stakes), provider, amount).Ok? ==>
                r == Ok(()) && stakes == StakeInto(old(stakes), provider, amount).value
    {
      if amount <= 0 {
        return Err(NonPositiveAmount);
      }
      var info := GetStake(stakes, provider);
      if !InI128(info.amount + amount) {
        return Err(Overflow);
      }
      info := info.(amount := info.amount + amount);
      stakes := stakes[provider := info];
      r := Ok(());
    }

    /** `unstake`: the amount paid out. */
    method Unstake(provider: Address, now: int) returns (r: Result<int, StakeError>)
      modifies this
      ensures UnstakeFrom(old(stakes), provider, now).Err? ==>
                r == Err(UnstakeFrom(old(stakes), provider, now).error) && stakes == old(stakes)
      ensures UnstakeFrom(old(stakes), provider, now).Ok? ==>
                r == Ok(UnstakeFrom(old(stakes), provider, now).value.1) && stakes == UnstakeFrom(old(stakes), provider, now).value.0
    {
      if provider !in stakes {
        return Err(NoStakeFound);
      }
      var info := stakes[provider];
      if now < info.lastSignalTime + UNSTAKE_LOCK_PERIOD {
        return Err(Locked);
      }
      if info.amount <= 0 {
        return Err(NothingStaked);
      }
      var amount := info.amount;
      info := info.(amount := 0);
      stakes := stakes[provider := info];
      r := Ok(amount);
    }

    /** `update_last_signal_time`. */
    method RecordSignalTime(provider: Address, now: int) returns (r: Result<(), StakeError>)
      modifies this
      ensures UpdateLastSignalTime(old(stakes), provider, now).Err? ==> r == Err(NoStakeFound) && stakes == old(stakes)
      ensures UpdateLastSignalTime(old(stakes), provider, now).Ok? ==>
                r == Ok(()) && stakes == UpdateLastSignalTime(old(stakes), provider, now).value
    {
      if provider !in stakes {
        return Err(NoStakeFound);
      }
      stakes := stakes[provider := stakes[provider].(lastSignalTime := now)];
      r := Ok(());
    }
  }
}
