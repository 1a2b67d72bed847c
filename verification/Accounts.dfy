/**
 * Deserialized accounts. A handler loads an account into an object, assigns its fields step by
 * step, and stores the object's data back when it has succeeded.
 */
module Accounts {
  import opened Arithmetic
  import opened Types
  import opened Rewards
  import P = Pool

  class LaunchAccount {
    var totalWeightedStake: u128
    var accRewardPerWeight: u128
    var rewardReserve: u64

    function Data(): P.LaunchConfig
      reads this
    {
      P.LaunchConfig(totalWeightedStake, accRewardPerWeight, rewardReserve)
    }

    /** A newly created launch has no weight and no rewards. */
    constructor Init()
      ensures Data() == P.EMPTY_LAUNCH
    {
      totalWeightedStake, accRewardPerWeight, rewardReserve := 0, 0, 0;
    }

    constructor Load(data: P.LaunchConfig)
      ensures Data() == data
    {
      totalWeightedStake := data.totalWeightedStake;
      accRewardPerWeight := data.accRewardPerWeight;
      rewardReserve := data.rewardReserve;
    }

    /**
     * One batch of rewards. A failed call may leave the accumulator already raised: it is the
     * transaction that undoes that.
     */
    method ApplyRewards(amount: u64) returns (r: Status)
      modifies this
      ensures match P.ApplyRewards(old(Data()), amount)
              case Ok(data) => r.Ok? && Data() == data
              case Err(e) => r == Err(e)
      ensures totalWeightedStake == old(totalWeightedStake)
      ensures r.Ok? ==>
                && PRECISION * amount - totalWeightedStake
                   < totalWeightedStake * (accRewardPerWeight - old(accRewardPerWeight)) <= PRECISION * amount
                && rewardReserve == old(rewardReserve) + amount
    {
      if totalWeightedStake == 0 {
        return Err(NoActiveStake);
      }
      var product :- CheckedMul128(amount, PRECISION);
      var increment :- CheckedDiv128(product, totalWeightedStake);
      if increment == 0 {
        return Err(NoRewards);
      }
      DivBounds(amount * PRECISION, totalWeightedStake);
      accRewardPerWeight :- CheckedAdd128(accRewardPerWeight, increment);
      rewardReserve :- CheckedAdd64(rewardReserve, amount);
      return Ok(());
    }

    /** Taking a payout from the reserve; the lamports are moved by the caller. */
    method TakeFromReserve(amount: u64) returns (r: Status)
      modifies this
      ensures match P.PayRewards(old(Data()), amount)
              case Ok(data) => r.Ok? && Data() == data
              case Err(e) => r == Err(e) && Data() == old(Data())
    {
      if rewardReserve < amount {
        return Err(InsufficientRewardReserve);
      }
      rewardReserve :- CheckedSub64(rewardReserve, amount);
      return Ok(());
    }
  }

  class PositionAccount {
    var amount: u64
    var weight: u128
    var unlockTs: i64
    var rewardDebt: u128

    function Data(): P.StakePosition
      reads this
    {
      P.StakePosition(amount, weight, unlockTs, rewardDebt)
    }

    constructor Load(data: P.StakePosition)
      ensures Data() == data
    {
      amount := data.amount;
      weight := data.weight;
      unlockTs := data.unlockTs;
      rewardDebt := data.rewardDebt;
    }

    /** A newly allocated account is all zeroes. */
    constructor Init()
      ensures Data() == P.StakePosition(0, 0, 0, 0)
    {
      amount, weight, unlockTs, rewardDebt := 0, 0, 0, 0;
    }

    /**
     * What the position can be paid at an accumulator value: the most whole units its credit
     * allows. It fails exactly when the product, or a result below zero or above 64 bits, does not
     * fit.
     */
    method PendingReward(acc: u128) returns (r: Result<u64>)
      ensures r.Ok? ==>
                PRECISION * r.value <= Credit(weight, rewardDebt, acc) < PRECISION * r.value + PRECISION
      ensures r.Ok? <==>
                && weight * acc <= U128_MAX
                && 0 <= Credit(weight, rewardDebt, acc) < PRECISION * (U64_MAX + 1)
      ensures r == Pending(weight, rewardDebt, acc)
    {
      PendingBrackets(weight, rewardDebt, acc);
      var accrued :- RewardDebt(weight, acc);
      var pending :- CheckedSub128(accrued, rewardDebt);
      return ToU64(pending);
    }
  }
}
