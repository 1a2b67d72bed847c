/**
 * One launch: its reward accumulator, its stake positions and its staking vault.
 *
 * A step is one staking instruction, or the arrival of one batch of rewards. It either
 * succeeds with a new pool and the lamports owed to the caller, or fails with an error,
 * and then the pool stays what it was.
 */
module Pool {
  import opened Types
  import opened Rewards

  datatype LaunchConfig = LaunchConfig(totalWeightedStake: u128, accRewardPerWeight: u128, rewardReserve: u64)

  datatype StakePosition = StakePosition(amount: u64, weight: u128, unlockTs: i64, rewardDebt: u128)

  datatype Pool = Pool(launch: LaunchConfig, positions: map<Pubkey, StakePosition>, vault: u64)

  const EMPTY_LAUNCH := LaunchConfig(0, 0, 0)

  /**
   * `funds` is the balance of the caller's token account and `clean` says whether the
   * creator vaults of the launch's fee route are empty.
   */
  datatype Op =
    | Apply(amount: u64)
    | Stake(owner: Pubkey, amount: u64, lockDays: nat, funds: u64, clean: bool)
    | Increase(owner: Pubkey, amount: u64, lockDays: nat, funds: u64, clean: bool)
    | Claim(owner: Pubkey)
    | Unstake(owner: Pubkey)
    | VaultDeposit(tokens: u64)

  datatype Outcome = Outcome(pool: Pool, paid: u64)

  /** The accumulator increment of a batch of `amount` over a total weight. */
  function Increment(amount: nat, total: nat): nat
    requires total > 0
  {
    amount * PRECISION / total
  }

  function ApplyRewards(l: LaunchConfig, amount: u64): Result<LaunchConfig> {
    if l.totalWeightedStake == 0 then
      Err(NoActiveStake)
    else
      var increment := Increment(amount, l.totalWeightedStake);
      if increment == 0 then
        Err(NoRewards)
      else if l.accRewardPerWeight + increment > U128_MAX || l.rewardReserve + amount > U64_MAX then
        Err(MathOverflow)
      else
        Ok(l.(accRewardPerWeight := l.accRewardPerWeight + increment, rewardReserve := l.rewardReserve + amount))
  }

  /** Taking a payout from the reserve. */
  function PayRewards(l: LaunchConfig, amount: u64): Result<LaunchConfig> {
    if l.rewardReserve < amount then
      Err(InsufficientRewardReserve)
    else
      Ok(l.(rewardReserve := l.rewardReserve - amount))
  }

  /** Moving tokens from a funded account into the vault. */
  function TokensIn(vault: u64, amount: u64, funds: u64): Result<u64> {
    if funds < amount || vault + amount > U64_MAX then Err(TokenError) else Ok(vault + amount)
  }

  /** A position's weight and debt when it is (re)opened at the current accumulator. */
  function Opened(l: LaunchConfig, amount: u64, multiplier: u64, unlockTs: i64): Result<StakePosition> {
    var weight :- WeightedAmount(amount, multiplier);
    var debt :- RewardDebt(weight, l.accRewardPerWeight);
    Ok(StakePosition(amount, weight, unlockTs, debt))
  }

  function StakeStep(p: Pool, owner: Pubkey, amount: u64, lockDays: nat, funds: u64, clean: bool, now: i64): Result<Outcome> {
    if owner in p.positions then
      Err(AccountInUse)
    else if amount == 0 then
      Err(ZeroAmount)
    else if p.launch.totalWeightedStake > 0 && !clean then
      Err(UnclaimedCreatorFees)
    else
      var multiplier :- LockMultiplier(lockDays);
      var unlockTs :- UnlockTime(now, lockDays);
      var vault :- TokensIn(p.vault, amount, funds);
      var position :- Opened(p.launch, amount, multiplier, unlockTs);
      var total :- CheckedAdd128(p.launch.totalWeightedStake, position.weight);
      Ok(Outcome(Pool(p.launch.(totalWeightedStake := total), p.positions[owner := position], vault), 0))
  }

  function IncreaseStep(p: Pool, owner: Pubkey, amount: u64, lockDays: nat, funds: u64, clean: bool, now: i64): Result<Outcome> {
    if owner !in p.positions then
      Err(AccountMissing)
    else if amount == 0 then
      Err(ZeroAmount)
    else if !clean then
      Err(UnclaimedCreatorFees)
    else
      var prior := p.positions[owner];
      var multiplier :- LockMultiplier(lockDays);
      var unlockTs :- UnlockTime(now, lockDays);
      var pending :- Pending(prior.weight, prior.rewardDebt, p.launch.accRewardPerWeight);
      if unlockTs < prior.unlockTs then
        Err(CannotShortenLock)
      else
        var vault :- TokensIn(p.vault, amount, funds);
        var launch :- PayRewards(p.launch, pending);
        var newAmount :- CheckedAdd64(prior.amount, amount);
        var position :- Opened(launch, newAmount, multiplier, unlockTs);
        var rest :- CheckedSub128(launch.totalWeightedStake, prior.weight);
        var total :- CheckedAdd128(rest, position.weight);
        Ok(Outcome(Pool(launch.(totalWeightedStake := total), p.positions[owner := position], vault), pending))
  }

  function ClaimStep(p: Pool, owner: Pubkey): Result<Outcome> {
    if owner !in p.positions then
      Err(AccountMissing)
    else
      var prior := p.positions[owner];
      var pending :- Pending(prior.weight, prior.rewardDebt, p.launch.accRewardPerWeight);
      if pending == 0 then
        Err(NoRewards)
      else
        var debt :- RewardDebt(prior.weight, p.launch.accRewardPerWeight);
        var launch :- PayRewards(p.launch, pending);
        Ok(Outcome(Pool(launch, p.positions[owner := prior.(rewardDebt := debt)], p.vault), pending))
  }

  function UnstakeStep(p: Pool, owner: Pubkey, now: i64): Result<Outcome> {
    if owner !in p.positions then
      Err(AccountMissing)
    else
      var prior := p.positions[owner];
      if now < prior.unlockTs then
        Err(PositionLocked)
      else
        var pending :- Pending(prior.weight, prior.rewardDebt, p.launch.accRewardPerWeight);
        var launch :- PayRewards(p.launch, pending);
        var total :- CheckedSub128(launch.totalWeightedStake, prior.weight);
        if p.vault < prior.amount then
          Err(TokenError)
        else
          Ok(Outcome(
               Pool(launch.(totalWeightedStake := total), p.positions - {owner}, p.vault - prior.amount),
               pending))
  }

  /** One step at clock time `now`. */
  function Step(p: Pool, op: Op, now: i64): Result<Outcome> {
    match op
    case Apply(amount) =>
      var launch :- ApplyRewards(p.launch, amount);
      Ok(Outcome(p.(launch := launch), 0))
    case Stake(owner, amount, lockDays, funds, clean) => StakeStep(p, owner, amount, lockDays, funds, clean, now)
    case Increase(owner, amount, lockDays, funds, clean) => IncreaseStep(p, owner, amount, lockDays, funds, clean, now)
    case Claim(owner) => ClaimStep(p, owner)
    case Unstake(owner) => UnstakeStep(p, owner, now)
    case VaultDeposit(tokens) =>
      var vault :- CheckedAdd64(p.vault, tokens);
      Ok(Outcome(p.(vault := vault), 0))
  }

  ghost function Weights(positions: map<Pubkey, StakePosition>): map<Pubkey, int> {
    map o | o in positions :: positions[o].weight
  }

  ghost function Amounts(positions: map<Pubkey, StakePosition>): map<Pubkey, int> {
    map o | o in positions :: positions[o].amount
  }

  /** Every position's scaled credit at accumulator value `acc`. */
  ghost function Credits(positions: map<Pubkey, StakePosition>, acc: int): map<Pubkey, int> {
    map o | o in positions :: Credit(positions[o].weight, positions[o].rewardDebt, acc)
  }

  /** What a position could be paid now: the whole part of its credit. */
  ghost function Owed(position: StakePosition, acc: nat): int {
    position.weight * acc / PRECISION - position.rewardDebt
  }

  ghost function AllOwed(positions: map<Pubkey, StakePosition>, acc: nat): map<Pubkey, int> {
    map o | o in positions :: Owed(positions[o], acc)
  }
}
