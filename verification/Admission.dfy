/**
 * Which staking calls succeed in a running launch, and why none of its 64- and 128-bit totals
 * can be what stops them.
 */
module Admission {
  import opened Arithmetic
  import opened Types
  import opened Rewards
  import opened Sums
  import opened Pool
  import opened Positions
  import opened History
  import opened Solvency

  /** All weights together are at most two and a half times the vault. */
  lemma TotalWithinVault(s: Sim)
    requires Bookkept(s.pool) && VaultBacked(s)
    ensures 0 <= 2 * s.pool.launch.totalWeightedStake <= 5 * Sum(Amounts(s.pool.positions)) <= 5 * s.pool.vault
  {
    var ps := s.pool.positions;
    var zero: map<Pubkey, int> := map o | o in ps :: 0;
    var twice := map o | o in ps :: 2 * Weights(ps)[o];
    var fiveTimes := map o | o in ps :: 5 * Amounts(ps)[o];
    SumLinear(zero, Weights(ps), 2, twice);
    SumLinear(zero, Amounts(ps), 5, fiveTimes);
    SumConstantZero(zero);
    SumMonotone(twice, fiveTimes);
    SumNonNegative(Weights(ps));
  }

  lemma WeightFollowsLock(amount: u64, lockDays: nat)
    requires LockMultiplier(lockDays).Ok?
    ensures WeightedAmount(amount, LockMultiplier(lockDays).value) == Ok(Weighted(amount, lockDays))
    ensures 0 <= 2 * Weighted(amount, lockDays) <= 5 * amount
  {
    WeightBounds(amount, lockDays);
  }

  /** What both calls that bring tokens in demand of the caller, whatever state the launch is in. */
  predicate CanDeposit(p: Pool, amount: u64, lockDays: nat, funds: u64, now: i64) {
    && 0 < amount <= funds
    && p.vault + amount <= U64_MAX
    && LockMultiplier(lockDays).Ok?
    && now + lockDays * 86_400 <= I64_MAX
  }

  /** An opening at `amount` is refused only when its debt product does not fit. */
  lemma OpenedExactly(l: LaunchConfig, amount: u64, lockDays: nat, unlockTs: i64)
    requires LockMultiplier(lockDays).Ok?
    ensures Opened(l, amount, LockMultiplier(lockDays).value, unlockTs).Ok?
       <==> Weighted(amount, lockDays) * l.accRewardPerWeight <= U128_MAX
    ensures Opened(l, amount, LockMultiplier(lockDays).value, unlockTs).Ok?
        ==> Opened(l, amount, LockMultiplier(lockDays).value, unlockTs).value.weight == Weighted(amount, lockDays)
  {
    WeightFollowsLock(amount, lockDays);
  }

  lemma StakeAdmitted(s: Sim, op: Op)
    requires Sound(s) && op.Stake?
    ensures Step(s.pool, op, s.clock).Ok? <==>
      && op.owner !in s.pool.positions
      && (s.pool.launch.totalWeightedStake == 0 || op.clean)
      && CanDeposit(s.pool, op.amount, op.lockDays, op.funds, s.clock)
      && Weighted(op.amount, op.lockDays) * s.pool.launch.accRewardPerWeight <= U128_MAX
  {
    hide Sound, Opened;
    if LockMultiplier(op.lockDays).Ok? && s.clock + op.lockDays * 86_400 <= I64_MAX {
      WeightFollowsLock(op.amount, op.lockDays);
      OpenedExactly(s.pool.launch, op.amount, op.lockDays, s.clock + op.lockDays * 86_400);
      assert Bookkept(s.pool) && VaultBacked(s) by { SoundParts(s); }
      TotalWithinVault(s);
      hide Weighted, LockMultiplier;
    }
  }

  lemma SoundParts(s: Sim)
    requires Sound(s)
    ensures Bookkept(s.pool) && VaultBacked(s) && DebtsFromThePast(s)
  {
  }

  /**
   * A stake succeeds exactly when the owner has no position, the deposit is possible, the creator
   * vaults are clean unless the pool is empty, and the debt product fits. The 128-bit sum of all
   * weights cannot overflow: the vault's 64 bits do not leave room for that.
   */
  lemma {:induction false} StakeSucceedsExactly(vault: u64, clock: i64, inputs: seq<Input>, op: Op)
    requires op.Stake?
    ensures var s := Run(Initial(vault, clock), inputs);
      Step(s.pool, op, s.clock).Ok? <==>
        && op.owner !in s.pool.positions
        && (s.pool.launch.totalWeightedStake == 0 || op.clean)
        && CanDeposit(s.pool, op.amount, op.lockDays, op.funds, s.clock)
        && Weighted(op.amount, op.lockDays) * s.pool.launch.accRewardPerWeight <= U128_MAX
  {
    EveryRunIsSound(vault, clock, inputs);
    hide Run, Initial, Step, CanDeposit, Weighted, Sound;
    StakeAdmitted(Run(Initial(vault, clock), inputs), op);
  }

  /** The position an increase would settle has a payable reward that the reserve covers. */
  ghost predicate CanSettle(p: Pool, q: StakePosition) {
    && q.weight * p.launch.accRewardPerWeight <= U128_MAX
    && Owed(q, p.launch.accRewardPerWeight) <= p.launch.rewardReserve
  }

  lemma SettlesExactly(s: Sim, o: Pubkey)
    requires DebtsFromThePast(s) && o in s.pool.positions
    ensures var q := s.pool.positions[o];
      var pending := Pending(q.weight, q.rewardDebt, s.pool.launch.accRewardPerWeight);
      CanSettle(s.pool, q) <==> pending.Ok? && PayRewards(s.pool.launch, pending.value).Ok?
  {
    var q := s.pool.positions[o];
    DebtsArePayable(s, o);
    PendingIsWholeCredit(q.weight, q.rewardDebt, s.pool.launch.accRewardPerWeight);
  }

  /** The vault leaves room for the new principal, and the total for taking the old weight off. */
  lemma RoomForIncrease(s: Sim, o: Pubkey)
    requires Bookkept(s.pool) && VaultBacked(s) && o in s.pool.positions
    ensures s.pool.positions[o].amount <= s.pool.vault
    ensures s.pool.positions[o].weight <= s.pool.launch.totalWeightedStake
    ensures 2 * s.pool.launch.totalWeightedStake <= 5 * s.pool.vault
  {
    WeightAtMostTotal(s.pool.positions, o);
    TotalWithinVault(s);
  }

  lemma IncreaseAdmitted(s: Sim, op: Op)
    requires Sound(s) && op.Increase?
    ensures Step(s.pool, op, s.clock).Ok? <==>
      && op.owner in s.pool.positions
      && op.clean
      && CanDeposit(s.pool, op.amount, op.lockDays, op.funds, s.clock)
      && s.pool.positions[op.owner].unlockTs <= s.clock + op.lockDays * 86_400
      && CanSettle(s.pool, s.pool.positions[op.owner])
      && Weighted(s.pool.positions[op.owner].amount + op.amount, op.lockDays) * s.pool.launch.accRewardPerWeight <= U128_MAX
  {
    hide Sound, Opened, Pending, CanSettle;
    if op.owner in s.pool.positions {
      var q := s.pool.positions[op.owner];
      SoundParts(s);
      SettlesExactly(s, op.owner);
      RoomForIncrease(s, op.owner);
      hide Weighted, LockMultiplier, Bookkept, VaultBacked, DebtsFromThePast, Sum, Owed;
      if CanDeposit(s.pool, op.amount, op.lockDays, op.funds, s.clock) && CanSettle(s.pool, q) {
        var pending := Pending(q.weight, q.rewardDebt, s.pool.launch.accRewardPerWeight).value;
        var settled := PayRewards(s.pool.launch, pending).value;
        WeightFollowsLock(q.amount + op.amount, op.lockDays);
        OpenedExactly(settled, q.amount + op.amount, op.lockDays, s.clock + op.lockDays * 86_400);
      }
    }
  }

  /**
   * An increase succeeds exactly when the position exists and can be settled, the deposit is
   * possible, the creator vaults are clean, the lock is not shortened, and the new debt product
   * fits. The principal, the weight taken off and the weight put on cannot be what fails.
   */
  lemma {:induction false} IncreaseSucceedsExactly(vault: u64, clock: i64, inputs: seq<Input>, op: Op)
    requires op.Increase?
    ensures var s := Run(Initial(vault, clock), inputs);
      Step(s.pool, op, s.clock).Ok? <==>
        && op.owner in s.pool.positions
        && op.clean
        && CanDeposit(s.pool, op.amount, op.lockDays, op.funds, s.clock)
        && s.pool.positions[op.owner].unlockTs <= s.clock + op.lockDays * 86_400
        && CanSettle(s.pool, s.pool.positions[op.owner])
        && Weighted(s.pool.positions[op.owner].amount + op.amount, op.lockDays) * s.pool.launch.accRewardPerWeight
           <= U128_MAX
  {
    EveryRunIsSound(vault, clock, inputs);
    hide Run, Initial, Step, CanDeposit, CanSettle, Weighted, Sound;
    IncreaseAdmitted(Run(Initial(vault, clock), inputs), op);
  }

  lemma IncrementPositive(amount: nat, total: nat)
    requires total > 0
    ensures Increment(amount, total) > 0 <==> total <= amount * PRECISION
  {
    DivBounds(amount * PRECISION, total);
    if Increment(amount, total) > 0 {
      MulMonotone(1, Increment(amount, total), total);
    }
  }

  /**
   * A batch succeeds exactly when there is weight to credit, the batch is large enough to move the
   * accumulator, and both sums fit. Since the vault's 64 bits bound the weight, no batch of 47 or
   * more is ever too small.
   */
  lemma {:induction false} BatchSucceedsExactly(vault: u64, clock: i64, inputs: seq<Input>, amount: u64)
    ensures var s := Run(Initial(vault, clock), inputs);
      var l := s.pool.launch;
      && (Step(s.pool, Apply(amount), s.clock).Ok? <==>
            && 0 < l.totalWeightedStake <= amount * PRECISION
            && l.accRewardPerWeight + Increment(amount, l.totalWeightedStake) <= U128_MAX
            && l.rewardReserve + amount <= U64_MAX)
      && (amount >= 47 ==> l.totalWeightedStake <= amount * PRECISION)
  {
    EveryRunIsSound(vault, clock, inputs);
    hide Run, Initial, Increment;
    var s := Run(Initial(vault, clock), inputs);
    TotalWithinVault(s);
    if s.pool.launch.totalWeightedStake > 0 {
      IncrementPositive(amount, s.pool.launch.totalWeightedStake);
    }
  }
}
