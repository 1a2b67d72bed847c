/**
 * The pure arithmetic of the reward program: lock multipliers, weights, the split of a
 * claimed fee, and the amount a weight has accrued at a given accumulator value.
 */
module Rewards {
  import opened Arithmetic
  import opened Types

  const PRECISION: int := 1_000_000_000_000_000_000
  const BPS_DENOMINATOR: int := 10_000
  const MAIN_REWARD_BPS: int := 500
  const PROTOCOL_FEE_BPS: int := 2_500
  const DAY_SECONDS: int := 86_400

  /** The largest claim whose fee product still fits 64 bits. */
  const MAX_CLAIM: int := 7_378_697_629_483_820

  /** The largest total of applied rewards for which no debt product can overflow. */
  const MAX_APPLIED: int := 340_282_366_920_938_463_463

  function LockMultiplier(lockDays: nat): Result<u64> {
    if lockDays == 7 then Ok(10_000)
    else if lockDays == 30 then Ok(12_500)
    else if lockDays == 90 then Ok(17_500)
    else if lockDays == 180 then Ok(25_000)
    else Err(InvalidLockDuration)
  }

  function UnlockTime(now: i64, lockDays: nat): Result<i64> {
    if now + lockDays * DAY_SECONDS <= I64_MAX then
      Ok(now + lockDays * DAY_SECONDS)
    else
      Err(MathOverflow)
  }

  function WeightedAmount(amount: u64, multiplier: u64): Result<u128> {
    var product :- CheckedMul128(amount, multiplier);
    CheckedDiv128(product, BPS_DENOMINATOR)
  }

  /** The weight of an amount locked for one of the offered terms, zero for any other. */
  function Weighted(amount: int, lockDays: nat): int {
    match LockMultiplier(lockDays)
    case Ok(multiplier) => amount * multiplier / BPS_DENOMINATOR
    case Err(_) => 0
  }

  function RewardDebt(weight: u128, acc: u128): Result<u128> {
    var product :- CheckedMul128(weight, acc);
    CheckedDiv128(product, PRECISION)
  }

  /** What a holder of `weight` who has already been accounted `debt` can be paid now. */
  function Pending(weight: u128, debt: u128, acc: u128): Result<u64> {
    var accrued :- RewardDebt(weight, acc);
    var pending :- CheckedSub128(accrued, debt);
    ToU64(pending)
  }

  function ProtocolFee(amount: u64): Result<u64> {
    var product :- CheckedMul64(amount, PROTOCOL_FEE_BPS);
    CheckedDiv128(product, BPS_DENOMINATOR)
  }

  datatype Split = Split(protocolFee: u64, mainReward: u64, reward: u64)

  function SplitAmounts(amount: u64): Result<Split> {
    if amount == 0 then
      Err(NoRewards)
    else
      var fee :- ProtocolFee(amount);
      var postFee :- CheckedSub64(amount, fee);
      var product :- CheckedMul128(postFee, MAIN_REWARD_BPS);
      var quotient :- CheckedDiv128(product, BPS_DENOMINATOR);
      var mainReward :- ToU64(quotient);
      var reward :- CheckedSub64(postFee, mainReward);
      Ok(Split(fee, mainReward, reward))
  }

  /** The scaled credit of a weight: what it is owed, in units of 1 / PRECISION. */
  function Credit(weight: int, debt: int, acc: int): int {
    weight * acc - PRECISION * debt
  }

  /** A split succeeds exactly on the amounts from 1 to MAX_CLAIM. */
  lemma SplitSucceedsExactly(amount: u64)
    ensures SplitAmounts(amount).Ok? <==> 1 <= amount <= 7_378_697_629_483_820 == MAX_CLAIM
    ensures amount == 0 ==> SplitAmounts(amount) == Err(NoRewards)
    ensures amount > MAX_CLAIM ==> SplitAmounts(amount) == Err(MathOverflow)
  {
  }

  /**
   * Nothing is lost in a split; the fee and the main-coin share are rounded down, and the
   * stakers' share is positive and between 71.25% of the claim and that plus two units.
   */
  lemma SplitConserves(amount: u64)
    requires SplitAmounts(amount).Ok?
    ensures var s := SplitAmounts(amount).value;
      && s.protocolFee + s.mainReward + s.reward == amount
      && s.reward > 0
      && 4 * s.protocolFee <= amount < 4 * s.protocolFee + 4
      && 20 * s.mainReward <= amount - s.protocolFee < 20 * s.mainReward + 20
      && 7125 * amount <= 10_000 * s.reward < 7125 * amount + 20_000
  {
  }

  /** The fee of a quote claim leaves something to distribute. */
  lemma QuoteFeeLeavesReward(amount: u64)
    requires amount > 0 && ProtocolFee(amount).Ok?
    ensures 0 <= ProtocolFee(amount).value < amount
    ensures 3 * amount <= 4 * (amount - ProtocolFee(amount).value)
  {
  }

  /** Weights lie between the staked amount and two and a half times it. */
  lemma WeightBounds(amount: u64, lockDays: nat)
    requires LockMultiplier(lockDays).Ok?
    ensures WeightedAmount(amount, LockMultiplier(lockDays).value).Ok?
    ensures var w := WeightedAmount(amount, LockMultiplier(lockDays).value).value;
      amount <= w && 2 * w <= 5 * amount
  {
  }

  /** The four terms weigh 1, 1.25, 1.75 and 2.5 times the amount, rounded down; no other is offered. */
  lemma WeightsMatchTerms(amount: u64, lockDays: nat)
    ensures LockMultiplier(lockDays).Ok? <==> lockDays == 7 || lockDays == 30 || lockDays == 90 || lockDays == 180
    ensures LockMultiplier(lockDays).Err? ==> LockMultiplier(lockDays).error == InvalidLockDuration
    ensures LockMultiplier(lockDays).Ok? ==>
              && WeightedAmount(amount, LockMultiplier(lockDays).value) == Ok(Weighted(amount, lockDays))
              && var weight := Weighted(amount, lockDays);
                 && (lockDays == 7 ==> weight == amount)
                 && (lockDays == 30 ==> 4 * weight <= 5 * amount < 4 * weight + 4)
                 && (lockDays == 90 ==> 4 * weight <= 7 * amount < 4 * weight + 4)
                 && (lockDays == 180 ==> 2 * weight <= 5 * amount < 2 * weight + 2)
  {
  }

  /**
   * The four terms end 604800, 2592000, 7776000 and 15552000 seconds from now, and the unlock time
   * is refused exactly when it does not fit 64 signed bits.
   */
  lemma UnlockMatchesTerms(now: i64, lockDays: nat)
    ensures UnlockTime(now, lockDays).Ok? <==> now + 86_400 * lockDays <= 9_223_372_036_854_775_807
    ensures UnlockTime(now, lockDays).Err? ==> UnlockTime(now, lockDays).error == MathOverflow
    ensures UnlockTime(now, lockDays).Ok? ==>
              var unlockTs := UnlockTime(now, lockDays).value;
              && (lockDays == 7 ==> unlockTs == now + 604_800)
              && (lockDays == 30 ==> unlockTs == now + 2_592_000)
              && (lockDays == 90 ==> unlockTs == now + 7_776_000)
              && (lockDays == 180 ==> unlockTs == now + 15_552_000)
  {
  }

  /** A pending amount is the whole part of the scaled credit, whenever it fits. */
  lemma PendingIsWholeCredit(weight: u128, debt: u128, acc: u128)
    requires Credit(weight, debt, acc) >= 0
    ensures Pending(weight, debt, acc).Ok? <==>
            && weight * acc <= 340_282_366_920_938_463_463_374_607_431_768_211_455
            && Credit(weight, debt, acc) / PRECISION <= 18_446_744_073_709_551_615
    ensures Pending(weight, debt, acc).Ok? ==>
            Pending(weight, debt, acc).value == Credit(weight, debt, acc) / PRECISION
    ensures Credit(weight, debt, acc) / PRECISION == weight * acc / PRECISION - debt
    ensures Credit(weight, debt, acc) % PRECISION == weight * acc % PRECISION
  {
    DivMinusMultiple(weight * acc, PRECISION, debt);
  }

  /** A pending amount brackets the credit from below, and exists when the credit has such a bracket. */
  lemma PendingBrackets(weight: u128, debt: u128, acc: u128)
    ensures var pending := Pending(weight, debt, acc);
      && (pending.Ok? ==> PRECISION * pending.value <= Credit(weight, debt, acc) < PRECISION * pending.value + PRECISION)
      && (pending.Ok? <==> weight * acc <= U128_MAX && 0 <= Credit(weight, debt, acc) < PRECISION * (U64_MAX + 1))
  {
    DivBounds(weight * acc, PRECISION);
  }

  /** After settling, a weight keeps exactly the fraction of a unit it could not be paid. */
  lemma SettledCredit(weight: nat, acc: nat)
    ensures Credit(weight, weight * acc / PRECISION, acc) == weight * acc % PRECISION
    ensures 0 <= Credit(weight, weight * acc / PRECISION, acc) < PRECISION
  {
    DivBounds(weight * acc, PRECISION);
  }

  /** The largest amount the fee of a claim leaves. */
  const MAX_BATCH: int := 5_534_023_222_112_865

  /** What the fee of a claim can leave: what a quote claim, or one on the main launch, brings to its pool. */
  ghost predicate Bringable(amount: nat) {
    exists collected: u64 :: collected > 0 && Brings(collected, amount)
  }

  ghost predicate Brings(collected: u64, amount: nat) {
    ProtocolFee(collected).Ok? && amount == collected - ProtocolFee(collected).value
  }

  /** They are all the amounts from one to MAX_BATCH. */
  lemma BringableExactly(amount: nat)
    ensures Bringable(amount) <==> 1 <= amount <= MAX_BATCH
  {
    if 1 <= amount <= MAX_BATCH {
      var collected: u64 := (4 * amount - 1) / 3;
      assert Brings(collected, amount);
    }
  }

  /** What the fee of a claim leaves for the stakers of the main coin. */
  function Left(amount: u64): nat {
    match ProtocolFee(amount)
    case Ok(fee) => if fee <= amount then amount - fee else 0
    case Err(_) => 0
  }

  lemma LeftIsShared(amount: u64)
    requires 1 <= amount <= MAX_CLAIM
    ensures var split := SplitAmounts(amount);
      split.Ok? && split.value.reward + split.value.mainReward == Left(amount) > 0
      && split.value.protocolFee == amount - Left(amount)
  {
  }

  /** A batch that a claim can bring is what is left of some claim. */
  function Claimed(batch: nat): (amount: u64)
    requires 1 <= batch <= MAX_BATCH
    ensures 1 <= amount <= MAX_CLAIM && Left(amount) == batch
  {
    (4 * batch - 1) / 3
  }
}
