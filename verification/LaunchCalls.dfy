/** Exactly when the staking transactions succeed, on any launch in any run of the program. */
module LaunchCalls {
  import opened Types
  import opened Sums
  import opened Rewards
  import opened Pool
  import opened History
  import opened Solvency
  import opened Admission
  import opened Accrual
  import opened Lamports
  import opened SolProgram
  import opened Routing
  import opened SolRuns
  import opened SolLaunches

  /** In every run each launch's totals add up, its vault covers the principal, and its debts are covered. */
  lemma {:induction false} EveryLaunchIsCovered(s: State, ixs: seq<Instruction>, m: Pubkey)
    requires s.pools == map[] && m in ExecuteAll(s, ixs).pools
    ensures var p := ExecuteAll(s, ixs).pools[m];
      && p.launch.totalWeightedStake == Sum(Weights(p.positions))
      && Sum(Amounts(p.positions)) <= p.vault
      && forall o :: o in p.positions ==>
           p.positions[o].rewardDebt <= p.positions[o].weight * p.launch.accRewardPerWeight / PRECISION
  {
    EveryLaunchIsItsOwnRun(s, ixs, m);
    var (vault, start) := Origin(s, ixs, m);
    EveryRunIsSound(vault, start, SeenAll(s, ixs, m));
    var p := ExecuteAll(s, ixs).pools[m];
    forall o | o in p.positions
      ensures p.positions[o].rewardDebt <= p.positions[o].weight * p.launch.accRewardPerWeight / PRECISION
    {
      PendingNeverUnderflows(vault, start, SeenAll(s, ixs, m), o);
    }
  }

  /** A settling call pays what the position is owed. */
  lemma PaysWhatIsOwed(sim: Sim, op: Op)
    requires Sound(sim) && (op.Increase? || op.Claim? || op.Unstake?) && Step(sim.pool, op, sim.clock).Ok?
    ensures op.owner in sim.pool.positions
    ensures Step(sim.pool, op, sim.clock).value.paid
         == Owed(sim.pool.positions[op.owner], sim.pool.launch.accRewardPerWeight)
    ensures Owed(sim.pool.positions[op.owner], sim.pool.launch.accRewardPerWeight) <= sim.pool.launch.rewardReserve
  {
    assert op.owner in sim.pool.positions by { hide Pending, PayRewards, Opened; }
    SettlementOf(sim, op.owner);
    hide Sound, Opened, Owed;
  }

  /** A payout always can leave the launch account, so only the wallet's 64 bits can refuse it. */
  lemma PayoutMoves(l: Balances, m: Pubkey, o: Pubkey, paid: u64)
    requires paid <= Balance(l, Launch(m))
    ensures Move(l, Launch(m), Wallet(o), paid).Ok? <==> paid == 0 || Balance(l, Wallet(o)) + paid <= U64_MAX
  {
  }

  lemma SettlesWithinWallet(sim: Sim, s: State, op: Op, m: Pubkey)
    requires Sound(sim) && Mirrors(sim, s, m) && (op.Increase? || op.Claim? || op.Unstake?)
    requires Reserve(s, m) <= Balance(s.lamports, Launch(m))
    ensures StakingStep(s, m, op, op.owner).Ok? <==>
      && Step(s.pools[m], op, s.clock).Ok?
      && op.owner in s.pools[m].positions
      && Balance(s.lamports, Wallet(op.owner)) + Owed(s.pools[m].positions[op.owner], s.pools[m].launch.accRewardPerWeight)
         <= U64_MAX
  {
    if Step(s.pools[m], op, s.clock).Ok? {
      PaysWhatIsOwed(sim, op);
      PayoutMoves(s.lamports, m, op.owner, Step(s.pools[m], op, s.clock).value.paid);
    }
    hide Sound, Step, Move, Owed;
  }

  /** A stake transaction. */
  lemma {:induction false} StakeTransactionSucceedsExactly(s: State, ixs: seq<Instruction>, m: Pubkey, o: Pubkey,
                                                          amount: u64, lockDays: nat, funds: u64)
    requires s.pools == map[]
    ensures var t := ExecuteAll(s, ixs);
      Attempt(t, StakeTokens(m, o, amount, lockDays, funds)).Ok? <==>
        && m in t.pools && o !in t.pools[m].positions
        && (t.pools[m].launch.totalWeightedStake == 0 || CleanVaults(t, m))
        && CanDeposit(t.pools[m], amount, lockDays, funds, t.clock)
        && Weighted(amount, lockDays) * t.pools[m].launch.accRewardPerWeight <= U128_MAX
  {
    var t := ExecuteAll(s, ixs);
    if m in t.pools {
      EveryLaunchIsItsOwnRun(s, ixs, m);
      var (vault, start) := Origin(s, ixs, m);
      var op := Stake(o, amount, lockDays, funds, CleanVaults(t, m));
      StakeSucceedsExactly(vault, start, SeenAll(s, ixs, m), op);
      StakePaysNothing(t.pools[m], op, t.clock);
      hide Run, Initial, Step, CanDeposit, Weighted, ExecuteAll, CleanVaults, SeenAll, Origin;
    }
  }

  lemma StakePaysNothing(p: Pool, op: Op, now: i64)
    requires op.Stake?
    ensures Step(p, op, now).Ok? ==> Step(p, op, now).value.paid == 0
  {
  }

  lemma IncreaseInState(sim: Sim, t: State, m: Pubkey, o: Pubkey, amount: u64, lockDays: nat, funds: u64)
    requires Sound(sim) && Mirrors(sim, t, m) && Reserve(t, m) <= Balance(t.lamports, Launch(m))
    ensures Attempt(t, IncreaseTokens(m, o, amount, lockDays, funds)).Ok? <==>
        && o in t.pools[m].positions
        && CleanVaults(t, m)
        && CanDeposit(t.pools[m], amount, lockDays, funds, t.clock)
        && var q := t.pools[m].positions[o];
        var acc := t.pools[m].launch.accRewardPerWeight;
        && q.unlockTs <= t.clock + lockDays * 86_400
        && CanSettle(t.pools[m], q)
        && Balance(t.lamports, Wallet(o)) + Owed(q, acc) <= U64_MAX
        && Weighted(q.amount + amount, lockDays) * acc <= U128_MAX
  {
    var op := Increase(o, amount, lockDays, funds, CleanVaults(t, m));
    IncreaseAdmitted(sim, op);
    SettlesWithinWallet(sim, t, op, m);
    hide Step, CanDeposit, Weighted, CleanVaults, Sound, CanSettle, StakingStep, Owed;
  }

  /** An increase transaction. */
  lemma {:induction false} IncreaseTransactionSucceedsExactly(s: State, ixs: seq<Instruction>, m: Pubkey, o: Pubkey,
                                                             amount: u64, lockDays: nat, funds: u64)
    requires s.pools == map[]
    ensures var t := ExecuteAll(s, ixs);
      Attempt(t, IncreaseTokens(m, o, amount, lockDays, funds)).Ok? <==>
        && m in t.pools && o in t.pools[m].positions
        && CleanVaults(t, m)
        && CanDeposit(t.pools[m], amount, lockDays, funds, t.clock)
        && var q := t.pools[m].positions[o];
        var acc := t.pools[m].launch.accRewardPerWeight;
        && q.unlockTs <= t.clock + lockDays * 86_400
        && CanSettle(t.pools[m], q)
        && Balance(t.lamports, Wallet(o)) + Owed(q, acc) <= U64_MAX
        && Weighted(q.amount + amount, lockDays) * acc <= U128_MAX
  {
    hide ExecuteAll, OwnRun, Mirrors, Sound;
    if m in ExecuteAll(s, ixs).pools {
      EveryLaunchIsItsOwnRun(s, ixs, m);
      ReserveIsHeld(s, ixs, m);
      OwnRunIsSound(s, ixs, m);
      IncreaseInState(OwnRun(s, ixs, m), ExecuteAll(s, ixs), m, o, amount, lockDays, funds);
    }
  }

  /** A reward claim: it succeeds exactly when something is owed, is covered, and fits. */
  lemma {:induction false} ClaimTransactionSucceedsExactly(s: State, ixs: seq<Instruction>, m: Pubkey, o: Pubkey)
    requires s.pools == map[]
    ensures var t := ExecuteAll(s, ixs);
      Attempt(t, ClaimRewards(m, o)).Ok? <==>
        && m in t.pools && o in t.pools[m].positions
        && var q := t.pools[m].positions[o];
        var acc := t.pools[m].launch.accRewardPerWeight;
        && q.weight * acc <= U128_MAX
        && 0 < Owed(q, acc) <= t.pools[m].launch.rewardReserve
        && Balance(t.lamports, Wallet(o)) + Owed(q, acc) <= U64_MAX
  {
    var t := ExecuteAll(s, ixs);
    if m in t.pools {
      EveryLaunchIsItsOwnRun(s, ixs, m);
      ReserveIsHeld(s, ixs, m);
      OwnRunIsSound(s, ixs, m);
      var (vault, start) := Origin(s, ixs, m);
      ClaimSucceedsExactly(vault, start, SeenAll(s, ixs, m), o);
      SettlesWithinWallet(OwnRun(s, ixs, m), t, Claim(o), m);
      hide Run, Initial, Step, ExecuteAll, SeenAll, Origin, Sound, StakingStep, Owed;
    }
  }

  /**
   * An unstake transaction succeeds exactly when the position's lock has ended, its rewards fit
   * and are in the reserve, and the owner's wallet can take them: the launch account never
   * lacks the lamports, the vault never lacks the principal, the total never lacks the weight.
   */
  lemma {:induction false} UnstakeTransactionSucceedsExactly(s: State, ixs: seq<Instruction>, m: Pubkey, o: Pubkey)
    requires s.pools == map[]
    ensures var t := ExecuteAll(s, ixs);
      Attempt(t, UnstakeTokens(m, o)).Ok? <==>
        && m in t.pools && o in t.pools[m].positions
        && var q := t.pools[m].positions[o];
        var acc := t.pools[m].launch.accRewardPerWeight;
        && q.unlockTs <= t.clock
        && q.weight * acc <= U128_MAX
        && Owed(q, acc) <= t.pools[m].launch.rewardReserve
        && Balance(t.lamports, Wallet(o)) + Owed(q, acc) <= U64_MAX
  {
    var t := ExecuteAll(s, ixs);
    if m in t.pools {
      EveryLaunchIsItsOwnRun(s, ixs, m);
      ReserveIsHeld(s, ixs, m);
      OwnRunIsSound(s, ixs, m);
      var (vault, start) := Origin(s, ixs, m);
      UnstakeSucceedsExactly(vault, start, SeenAll(s, ixs, m), o);
      SettlesWithinWallet(OwnRun(s, ixs, m), t, Unstake(o), m);
      hide Run, Initial, Step, ExecuteAll, SeenAll, Origin, Sound, StakingStep, Owed;
    }
  }
}
