/** Single transactions on the launch of the main coin, from which the example runs are put together. */
module Scenes {
  import opened Types
  import opened Rewards
  import opened Pool
  import H = History
  import opened TightRun
  import opened Lamports
  import opened SolProgram
  import opened Routing
  import opened FeeClaims
  import opened SolLaunches

  /** The rent-exempt minima of an empty account, of a launch account and of a token account. */
  const RENT: u64 := 890_880
  const LAUNCH_RENT: u64 := 1_670_400
  const TOKEN_RENT: u64 := 2_039_280

  const CONFIG := Config(0, RENT, RENT, LAUNCH_RENT)

  const CREATE := InitializeLaunch(0, 9, 0)
  const CLAIM := ClaimPumpFees(0, 9, 0, [])

  function StakeWeek(owner: Pubkey, amount: u64): Instruction {
    StakeTokens(0, owner, amount, 7, amount)
  }

  lemma Snoc(s: State, xs: seq<Instruction>, x: Instruction)
    ensures ExecuteAll(s, xs + [x]) == Execute(ExecuteAll(s, xs), x)
    ensures SeenAll(s, xs + [x], 0) == SeenAll(s, xs, 0) + Seen(ExecuteAll(s, xs), x, 0)
  {
    assert (xs + [x])[..|xs|] == xs;
  }

  /** A launch without weight, and the payer's rent in its account. */
  lemma Creates(s: State)
    requires s.cfg == CONFIG && s.pools == map[]
    requires Balance(s.lamports, Launch(0)) == 0 && Balance(s.lamports, Wallet(9)) == LAUNCH_RENT
    ensures Attempt(s, CREATE).Ok? && Seen(s, CREATE, 0) == []
    ensures var t := Execute(s, CREATE);
      && t == s.(pools := map[0 := Pool(EMPTY_LAUNCH, map[], 0)], lamports := t.lamports)
      && forall a: Address :: Balance(t.lamports, a)
           == (if a == Launch(0) then LAUNCH_RENT else if a == Wallet(9) then 0 else Balance(s.lamports, a))
  {
  }

  /** A stake for a week, while the vaults are clean, does what the step of the launch does. */
  lemma Stakes(s: State, owner: Pubkey, amount: u64)
    requires s.clock == 0 && 0 in s.pools && CleanVaults(s, 0)
    requires Step(s.pools[0], Stake(owner, amount, 7, amount, true), 0).Ok?
    ensures var ix := StakeWeek(owner, amount);
      && Attempt(s, ix).Ok?
      && Execute(s, ix) == s.(pools := s.pools[0 := Step(s.pools[0], Stake(owner, amount, 7, amount, true), 0).value.pool])
      && Seen(s, ix, 0) == [Join(owner, amount)]
  {
    hide CleanVaults, LockMultiplier, UnlockTime, TokensIn, Opened;
  }

  /** The main launch with `amount` above the fee owner's floor, a funded fee vault, and room for both. */
  ghost predicate Ready(s: State, amount: nat) {
    && s.cfg == CONFIG && 0 in s.pools
    && Balance(s.lamports, FeeOwner(0)) == RENT + amount
    && RENT <= Balance(s.lamports, FeeVault(0)) <= 0x1000_0000_0000_0000
    && Balance(s.lamports, Launch(0)) <= 0x1000_0000_0000_0000
  }

  lemma Sweeps(s: State, amount: u64)
    requires Ready(s, amount) && 1 <= amount <= MAX_CLAIM
    ensures ClaimedAmount(s, CLAIM) == amount
    ensures PumpSweep(s, 0, 9, 0).Ok?
    ensures var mid := PumpSweep(s, 0, 9, 0).value;
      && mid.amount == amount && mid.state == s.(lamports := mid.state.lamports)
      && (forall a: Address :: Balance(mid.state.lamports, a) == Balance(s.lamports, a)
            - (if a == FeeOwner(0) then amount else 0) + (if a == Launch(0) then amount else 0))
  {
    MoveConserves(s.lamports, FeeOwner(0), Launch(0), amount);
  }

  lemma Routes(s: State, amount: u64)
    requires s.cfg == CONFIG && 0 in s.pools && 1 <= amount <= MAX_CLAIM
    requires RENT <= Balance(s.lamports, FeeVault(0)) <= 0x1000_0000_0000_0000
    requires amount <= Balance(s.lamports, Launch(0))
    requires ApplyRewards(s.pools[0].launch, Left(amount)).Ok?
    ensures Route(s, 0, 9, None, amount).Ok?
    ensures var t := Route(s, 0, 9, None, amount).value;
      && t == s.(lamports := t.lamports,
                 pools := s.pools[0 := s.pools[0].(launch := ApplyRewards(s.pools[0].launch, Left(amount)).value)])
      && (forall a: Address :: Balance(t.lamports, a) == Balance(s.lamports, a)
            - (if a == Launch(0) then amount - Left(amount) else 0) + (if a == FeeVault(0) then amount - Left(amount) else 0))
  {
    LeftIsShared(amount);
    hide SplitAmounts, Left, ApplyRewards;
    var fee := amount - Left(amount);
    assert TopUp(s.lamports, Wallet(9), FeeVault(0), RENT) == Ok(s.lamports);
    assert Move(s.lamports, Launch(0), FeeVault(0), fee).Ok?;
    MoveConserves(s.lamports, Launch(0), FeeVault(0), fee);
    hide Move, TopUp;
  }

  /** A claim with nothing to collect brings what is above the fee owner's floor, less the fee, to the stakers. */
  lemma Claims(s: State, amount: u64)
    requires Ready(s, amount) && 1 <= amount <= MAX_CLAIM
    requires ApplyRewards(s.pools[0].launch, Left(amount)).Ok?
    ensures Attempt(s, CLAIM).Ok? && ClaimedAmount(s, CLAIM) == amount
    ensures Seen(s, CLAIM, 0) == [H.Do(Apply(Left(amount)))]
    ensures var t := Execute(s, CLAIM);
      && t == s.(lamports := t.lamports,
                 pools := s.pools[0 := s.pools[0].(launch := ApplyRewards(s.pools[0].launch, Left(amount)).value)])
      && (forall a: Address :: Balance(t.lamports, a) == Balance(s.lamports, a)
            - (if a == FeeOwner(0) then amount else 0) + (if a == Launch(0) then Left(amount) else 0)
            + (if a == FeeVault(0) then amount - Left(amount) else 0))
  {
    Sweeps(s, amount);
    var mid := PumpSweep(s, 0, 9, 0).value.state;
    assert s.pools[0].launch.totalWeightedStake > 0;
    Routes(mid, amount);
    LeftIsShared(amount);
    hide PumpSweep, Route, SplitAmounts, Left, ApplyRewards, ClaimedAmount;
  }

  lemma Deposits(s: State, to: Address, amount: u64)
    requires Balance(s.lamports, to) + amount <= U64_MAX
    ensures Attempt(s, Deposit(to, amount)).Ok? && Seen(s, Deposit(to, amount), 0) == []
    ensures var t := Execute(s, Deposit(to, amount));
      && t == s.(lamports := t.lamports)
      && forall a: Address :: Balance(t.lamports, a) == Balance(s.lamports, a) + (if a == to then amount else 0)
  {
    hide ShareOf;
  }

  const SWAP_CLAIM := ClaimPumpSwapFees(0, 9, 0, [])

  ghost predicate SwapReady(s: State, amount: nat) {
    && s.cfg == CONFIG && 0 in s.pools
    && CoinCreatorAta(0) in s.wsol && FeeOwnerWsol(0) in s.wsol && s.wsol[FeeOwnerWsol(0)] > 0
    && Balance(s.lamports, FeeOwnerWsol(0)) == amount
    && RENT <= Balance(s.lamports, FeeVault(0)) <= 0x1000_0000_0000_0000
    && Balance(s.lamports, Launch(0)) <= 0x1000_0000_0000_0000
  }

  lemma SwapSweeps(s: State, amount: u64)
    requires SwapReady(s, amount) && 1 <= amount <= MAX_CLAIM
    ensures ClaimedAmount(s, SWAP_CLAIM) == amount
    ensures PumpSwapSweep(s, 0, 0).Ok?
    ensures var mid := PumpSwapSweep(s, 0, 0).value;
      && mid.amount == amount && mid.state == s.(lamports := mid.state.lamports, wsol := mid.state.wsol)
      && (forall a: Address :: Balance(mid.state.lamports, a) == Balance(s.lamports, a)
            - (if a == FeeOwnerWsol(0) then amount else 0) + (if a == Launch(0) then amount else 0))
  {
    MoveConserves(s.lamports, FeeOwnerWsol(0), Launch(0), amount);
  }

  /** A PumpSwap claim with nothing left to collect brings the closed account's lamports, less the fee. */
  lemma SwapClaims(s: State, amount: u64)
    requires SwapReady(s, amount) && 1 <= amount <= MAX_CLAIM
    requires ApplyRewards(s.pools[0].launch, Left(amount)).Ok?
    ensures Attempt(s, SWAP_CLAIM).Ok? && ClaimedAmount(s, SWAP_CLAIM) == amount
    ensures Execute(s, SWAP_CLAIM).pools
         == s.pools[0 := s.pools[0].(launch := ApplyRewards(s.pools[0].launch, Left(amount)).value)]
  {
    SwapSweeps(s, amount);
    var mid := PumpSwapSweep(s, 0, 0).value.state;
    assert s.pools[0].launch.totalWeightedStake > 0;
    Routes(mid, amount);
    hide PumpSwapSweep, Route, Left, ApplyRewards, ClaimedAmount;
  }

  // ---- The program and the launch's own run, side by side ----

  /** Empty creator vaults, and the lamports of the three accounts a claim on the main launch moves. */
  ghost predicate Standing(s: State, surplus: nat, held: nat, fees: nat) {
    && s.cfg == CONFIG && s.clock == 0 && s.wsol == map[]
    && Balance(s.lamports, CreatorVault(0)) == 0
    && Balance(s.lamports, FeeOwner(0)) == RENT + surplus
    && Balance(s.lamports, FeeVault(0)) == RENT + fees
    && Balance(s.lamports, Launch(0)) == LAUNCH_RENT + held
  }

  lemma StandingIsClean(s: State, surplus: nat, held: nat, fees: nat)
    requires Standing(s, surplus, held, fees)
    ensures CleanVaults(s, 0)
  {
  }

  /** The program has done with the launch what its own run has. */
  ghost predicate Follows(s: State, sim: H.Sim) {
    s.pools == map[0 := sim.pool] && sim.clock == 0
  }

  lemma StepFollows(s: State, t: State, sim: H.Sim, op: Op)
    requires Follows(s, sim) && Step(sim.pool, op, 0).Ok?
    requires t.pools == s.pools[0 := Step(sim.pool, op, 0).value.pool]
    ensures Follows(t, H.Next(sim, H.Do(op)))
  {
    hide Step, H.Record;
  }

  lemma StakeFollows(s: State, sim: H.Sim, owner: Pubkey, amount: u64, surplus: nat, held: nat, fees: nat)
    requires Standing(s, surplus, held, fees) && Follows(s, sim)
    requires Step(sim.pool, Stake(owner, amount, 7, amount, true), 0).Ok?
    ensures var t := Execute(s, StakeWeek(owner, amount));
      && Standing(t, surplus, held, fees) && Follows(t, H.Next(sim, Join(owner, amount)))
      && Seen(s, StakeWeek(owner, amount), 0) == [Join(owner, amount)]
  {
    hide Step, Seen, Attempt, Execute, CleanVaults, H.Next;
    StandingIsClean(s, surplus, held, fees);
    Stakes(s, owner, amount);
    StepFollows(s, Execute(s, StakeWeek(owner, amount)), sim, Stake(owner, amount, 7, amount, true));
  }

  lemma ClaimFollows(s: State, sim: H.Sim, surplus: u64, held: nat, fees: nat)
    requires Standing(s, surplus, held, fees) && Follows(s, sim)
    requires 1 <= surplus <= MAX_CLAIM && held <= MAX_CLAIM && fees <= MAX_CLAIM
    requires Left(surplus) <= U64_MAX && Step(sim.pool, Apply(Left(surplus)), 0).Ok?
    ensures var t := Execute(s, CLAIM);
      && Standing(t, 0, held + Left(surplus), fees + surplus - Left(surplus))
      && Follows(t, H.Next(sim, H.Do(Apply(Left(surplus)))))
      && Seen(s, CLAIM, 0) == [H.Do(Apply(Left(surplus)))]
  {
    hide Seen, Attempt, Execute, ApplyRewards, H.Next, Left;
    Claims(s, surplus);
    StepFollows(s, Execute(s, CLAIM), sim, Apply(Left(surplus)));
  }

  lemma RunOfTwo(s: H.Sim, x: H.Input, y: H.Input)
    ensures H.Run(s, [x] + [y]) == H.Next(H.Next(s, x), y)
  {
    hide H.Next;
    RunConcat(s, [x], [y]);
    RunOne(s, x);
    RunOne(H.Next(s, x), y);
  }

  lemma RunAgain(s: H.Sim, xs: seq<H.Input>, x: H.Input)
    ensures H.Run(s, xs + [x]) == H.Next(H.Run(s, xs), x)
  {
    hide H.Next;
    RunConcat(s, xs, [x]);
    RunOne(H.Run(s, xs), x);
  }

  lemma DepositFollows(s: State, sim: H.Sim, amount: u64, held: nat, fees: nat)
    requires Standing(s, 0, held, fees) && Follows(s, sim) && amount <= MAX_CLAIM
    ensures var t := Execute(s, Deposit(FeeOwner(0), amount));
      Standing(t, amount, held, fees) && Follows(t, sim) && Seen(s, Deposit(FeeOwner(0), amount), 0) == []
  {
    hide Seen, Attempt, Execute;
    Deposits(s, FeeOwner(0), amount);
  }

  lemma OriginStays(s: State, xs: seq<Instruction>, x: Instruction)
    requires !x.InitializeLaunch?
    ensures Origin(s, xs + [x], 0) == Origin(s, xs, 0)
  {
    assert (xs + [x])[..|xs|] == xs;
  }

  lemma OriginCreated(s: State)
    requires Attempt(s, CREATE).Ok? && s.clock == 0
    ensures Origin(s, [] + [CREATE], 0) == (0, 0)
  {
    assert ([] + [CREATE])[..0] == [];
    assert ExecuteAll(s, []) == s;
    hide Attempt;
  }
}
