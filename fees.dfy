// The platform fee on a trade: 10 basis points of the traded amount, split 70/30
// between the platform and the signal provider, and credited per asset to the
// treasury balance map.

module Fees {
  import opened Base
  import opened RegistryTypes

  const FEE_BPS: int := 10
  const BPS_DENOMINATOR: int := 10000
  const PLATFORM_SHARE_PERCENTAGE: int := 70
  const MIN_TRADE_AMOUNT: int := 1000

  /** A token the treasury keeps a balance of. */
  datatype FeeAsset = FeeAsset(symbol: Text, contract: Address)

  datatype FeeBreakdown = FeeBreakdown(totalFee: int, platformFee: int, providerFee: int, tradeAmountAfterFee: int)

  /** `calculate_fee`: `(fee, amount_after_fee)`, with the `checked_*` failures. */
  function CalculateFee(tradeAmount: int): (r: Result<(int, int), FeeError>)
    ensures r.Ok? ==> r.value.0 + r.value.1 == tradeAmount
  {
    if tradeAmount < MIN_TRADE_AMOUNT then Err(TradeTooSmall)
    else if !InI128(tradeAmount * FEE_BPS) then Err(ArithmeticOverflow)
    else
      var fee := tradeAmount * FEE_BPS / BPS_DENOMINATOR;
      if fee == 0 then Err(FeeRoundedToZero)
      else if !InI128(tradeAmount - fee) then Err(ArithmeticOverflow)
      else Ok((fee, tradeAmount - fee))
  }

  /** `calculate_fee_breakdown`: the platform takes 70% of the fee, rounded down, and
      the provider the rest. */
  function CalculateFeeBreakdown(tradeAmount: int): (r: Result<FeeBreakdown, FeeError>)
    ensures r.Ok? ==> r.value.platformFee + r.value.providerFee == r.value.totalFee
  {
    match CalculateFee(tradeAmount)
    case Err(e) => Err(e)
    case Ok((totalFee, after)) =>
      if !InI128(totalFee * PLATFORM_SHARE_PERCENTAGE) then Err(ArithmeticOverflow)
      else
        var platform := totalFee * PLATFORM_SHARE_PERCENTAGE / 100;
        if !InI128(totalFee - platform) then Err(ArithmeticOverflow)
        else Ok(FeeBreakdown(totalFee, platform, totalFee - platform, after))
  }

  /** `validate_trade_amount`. */
  function ValidateTradeAmount(tradeAmount: int): (r: Result<(), FeeError>)
    ensures r.Ok? <==> tradeAmount >= MIN_TRADE_AMOUNT
    ensures r.Err? ==> r.error == TradeTooSmall
  {
    if tradeAmount < MIN_TRADE_AMOUNT then Err(TradeTooSmall) else Ok(())
  }

  /** An i128 trade amount is accepted exactly when it reaches the minimum and its
      fee product fits; the fee is then the amount's 0.1% rounded down, at least 1,
      and the remainder is what is left of the amount. */
  lemma FeeMeaning(tradeAmount: int)
    requires InI128(tradeAmount)
    ensures CalculateFee(tradeAmount).Ok? <==> MIN_TRADE_AMOUNT <= tradeAmount && InI128(tradeAmount * FEE_BPS)
    ensures tradeAmount < MIN_TRADE_AMOUNT ==> CalculateFee(tradeAmount) == Err(TradeTooSmall)
    ensures CalculateFee(tradeAmount) != Err(FeeRoundedToZero)
    ensures CalculateFee(tradeAmount).Ok? ==>
              var (fee, after) := CalculateFee(tradeAmount).value;
              && 1 <= fee
              && fee * 1000 <= tradeAmount < (fee + 1) * 1000
              && after == tradeAmount - fee
              && 0 < after < tradeAmount
  {
    if MIN_TRADE_AMOUNT <= tradeAmount && InI128(tradeAmount * FEE_BPS) {
      var fee := tradeAmount * FEE_BPS / BPS_DENOMINATOR;
      assert fee == tradeAmount / 1000;
      assert fee >= 1;
    }
  }

  /** The platform and provider shares are both non-negative, split the whole fee,
      and the platform's is 70% of it rounded down; the breakdown fails exactly when
      the fee computation does, with the same error. */
  lemma BreakdownMeaning(tradeAmount: int)
    requires InI128(tradeAmount)
    ensures CalculateFeeBreakdown(tradeAmount).Ok? <==> CalculateFee(tradeAmount).Ok?
    ensures CalculateFee(tradeAmount).Err? ==> CalculateFeeBreakdown(tradeAmount) == Err(CalculateFee(tradeAmount).error)
    ensures CalculateFeeBreakdown(tradeAmount).Ok? ==>
              var b := CalculateFeeBreakdown(tradeAmount).value;
              && (b.totalFee, b.tradeAmountAfterFee) == CalculateFee(tradeAmount).value
              && b.platformFee * 100 <= b.totalFee * 70 < (b.platformFee + 1) * 100
              && 0 <= b.platformFee && 0 < b.providerFee
              && b.platformFee + b.providerFee == b.totalFee
  {
    FeeMeaning(tradeAmount);
  }

  /** The fee tests of the source: 1000, 100 and 10 XLM in stroops, the 1 XLM
      breakdown, and the bounds around the minimum (9999 is not rounded to zero). */
  lemma FeeExamples()
    ensures CalculateFee(1_000_000_000) == Ok((1_000_000, 999_000_000))
    ensures CalculateFee(100_000_000) == Ok((100_000, 99_900_000))
    ensures CalculateFee(10_000_000) == Ok((10_000, 9_990_000))
    ensures CalculateFeeBreakdown(1_000_000_000) == Ok(FeeBreakdown(1_000_000, 700_000, 300_000, 999_000_000))
    ensures CalculateFee(999) == Err(TradeTooSmall)
    ensures CalculateFee(MIN_TRADE_AMOUNT).Ok? && CalculateFee(9999).Ok?
  {
  }

  /** The treasury's per-asset fee balances. */
  class Treasury {
    var balances: map<FeeAsset, int>

    constructor ()
      ensures balances == map[]
    {
      balances := map[];
    }

    /** `get_treasury_balance`: an asset never credited reads 0. */
    function Balance(asset: FeeAsset): (b: int)
      reads this
      ensures asset !in balances ==> b == 0
    {
      if asset in balances then balances[asset] else 0
    }

    /** `add_to_treasury`. */
    method AddToTreasury(asset: FeeAsset, amount: int) returns (r: Result<(), FeeError>)
      modifies this
      ensures amount <= 0 ==> r == Err(InvalidAmount)
      ensures amount > 0 && !InI128(old(Balance(asset)) + amount) ==> r == Err(ArithmeticOverflow)
      ensures r.Err? ==> balances == old(balances)
      ensures amount > 0 && InI128(old(Balance(asset)) + amount) ==>
                r == Ok(()) && balances == old(balances)[asset := old(Balance(asset)) + amount]
    {
      if amount <= 0 {
        return Err(InvalidAmount);
      }
      var current := Balance(asset);
      if !InI128(current + amount) {
        return Err(ArithmeticOverflow);
      }
      balances := balances[asset := current + amount];
      r := Ok(());
    }

    /** `collect_and_distribute_fee`: the treasury tracks the whole fee; the token
        transfers to the two parties are not performed by the source. */
    method CollectAndDistributeFee(tradeAmount: int, asset: FeeAsset, provider: Address, platformTreasury: Address)
      returns (r: Result<FeeBreakdown, FeeError>)
      modifies this
      ensures provider == platformTreasury ==> r == Err(InvalidProviderAddress) && balances == old(balances)
      ensures provider != platformTreasury && CalculateFeeBreakdown(tradeAmount).Err? ==>
                r == CalculateFeeBreakdown(tradeAmount) && balances == old(balances)
      ensures r.Ok? ==>
                && r == CalculateFeeBreakdown(tradeAmount)
                && balances == old(balances)[asset := old(Balance(asset)) + r.value.totalFee]
      ensures r.Err? ==> balances == old(balances)
      ensures provider != platformTreasury && CalculateFeeBreakdown(tradeAmount).Ok? ==>
                r == (if InI128(old(Balance(asset)) + CalculateFeeBreakdown(tradeAmount).value.totalFee)
                      then CalculateFeeBreakdown(tradeAmount) else Err(ArithmeticOverflow))
    {
      if provider == platformTreasury {
        return Err(InvalidProviderAddress);
      }
      var breakdown := CalculateFeeBreakdown(tradeAmount);
      if breakdown.Err? {
        return breakdown;
      }
      var added := AddToTreasury(asset, breakdown.value.totalFee);
      if added.Err? {
        return Err(added.error);
      }
      r := breakdown;
    }
  }
}
