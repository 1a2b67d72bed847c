/** Runs in which fees were waiting when weight joined: the condition of module Joiners is exact. */
module WaitingFees {
  import opened Types
  import opened Rewards
  import opened Pool
  import opened Lamports
  import opened SolProgram
  import opened FeeClaims
  import opened Joiners
  import opened Scenes

  lemma TallySnoc(s: State, xs: seq<Instruction>, x: Instruction)
    ensures ExecuteAll(s, xs + [x]) == Execute(ExecuteAll(s, xs), x)
    ensures Tallied(s, xs + [x], 0) == Joiners.Next(ExecuteAll(s, xs), x, Tallied(s, xs, 0), 0)
  {
    assert (xs + [x])[..|xs|] == xs;
  }

  lemma TallyStarts(s: State)
    ensures ExecuteAll(s, []) == s && Tallied(s, [], 0) == Opening(s, 0)
  {
  }

  // ---- One staker, then another ----

  const FIRST := StakeWeek(1, 1)
  const SECOND := StakeWeek(2, 1)

  const WEEK := StakePosition(1, 1, 7 * DAY_SECONDS, 0)
  const ALONE := Pool(LaunchConfig(1, 0, 0), map[1 := WEEK], 1)
  const TOGETHER := Pool(LaunchConfig(2, 0, 0), map[1 := WEEK, 2 := WEEK], 2)

  lemma TwoSteps()
    ensures Step(Pool(EMPTY_LAUNCH, map[], 0), Stake(1, 1, 7, 1, true), 0) == Ok(Outcome(ALONE, 0))
    ensures Step(ALONE, Stake(2, 1, 7, 1, true), 0) == Ok(Outcome(TOGETHER, 0))
  {
    assert Opened(EMPTY_LAUNCH, 1, 10_000, 7 * DAY_SECONDS) == Ok(WEEK);
    assert Opened(ALONE.launch, 1, 10_000, 7 * DAY_SECONDS) == Ok(WEEK);
  }

  lemma FirstStakes(s: State)
    requires s.clock == 0 && s.pools == map[0 := Pool(EMPTY_LAUNCH, map[], 0)] && CleanVaults(s, 0)
    ensures Attempt(s, FIRST).Ok? && Execute(s, FIRST) == s.(pools := map[0 := ALONE])
  {
    hide Step, Attempt, Execute, CleanVaults;
    TwoSteps();
    Stakes(s, 1, 1);
  }

  lemma SecondStakes(s: State)
    requires s.clock == 0 && s.pools == map[0 := ALONE] && CleanVaults(s, 0)
    ensures Attempt(s, SECOND).Ok? && Execute(s, SECOND) == s.(pools := map[0 := TOGETHER])
  {
    hide Step, Attempt, Execute, CleanVaults;
    TwoSteps();
    Stakes(s, 2, 1);
  }

  /** Two weights of one share what is left of a claim: half of it each. */
  lemma BatchForTwo(amount: u64)
    requires 1 <= amount <= MAX_CLAIM
    ensures ApplyRewards(LaunchConfig(2, 0, 0), Left(amount)) == Ok(LaunchConfig(2, Left(amount) * (PRECISION / 2), Left(amount)))
  {
    LeftIsShared(amount);
    hide Left;
    assert Increment(Left(amount), 2) == Left(amount) * (PRECISION / 2);
  }

  lemma SameWaiting(s: State, t: State)
    requires t == s.(pools := t.pools)
    ensures Waiting(t, 0) == Waiting(s, 0) && (CleanVaults(t, 0) <==> CleanVaults(s, 0))
  {
  }

  /** The tally after a stake into an empty pool, a join, and a claim. */
  lemma LastClaim(r: Tally, s1: State, s2: State, s3: State, claim: Instruction)
    requires Attempt(s1, FIRST).Ok? && Attempt(s2, SECOND).Ok? && Attempt(s3, claim).Ok?
    requires s1.pools == map[0 := Pool(EMPTY_LAUNCH, map[], 0)] && s2.pools == map[0 := ALONE]
    requires IsFeeClaim(claim) && claim.mint == 0
    ensures Joiners.Next(s3, claim, Joiners.Next(s2, SECOND, Joiners.Next(s1, FIRST, r, 0), 0), 0).claims
         == r.claims + [Distribution(ClaimedAmount(s3, claim), Waiting(s2, 0), 0, true)]
  {
    hide Attempt, Waiting, ClaimedAmount, Arrival;
  }

  // ---- Any amount that was waiting ----

  /** As much of `h` as one claim can distribute waits with the fee owner, or one lamport of it. */
  function Surplus(h: nat): u64
    requires 1 <= h <= U64_MAX
  {
    if h <= MAX_CLAIM then h else 1
  }

  /** The rest waits in the fee owner's wrapped-SOL account, which then exists and holds its own rent. */
  function WithWaiting(h: nat): State
    requires 1 <= h <= U64_MAX
  {
    if h <= MAX_CLAIM then
      State(CONFIG, map[], map[Wallet(9) := LAUNCH_RENT, FeeVault(0) := RENT, FeeOwner(0) := RENT + h], map[], 0)
    else
      State(CONFIG, map[],
            map[Wallet(9) := LAUNCH_RENT, FeeVault(0) := RENT, FeeOwner(0) := RENT + 1, FeeOwnerWsol(0) := h - 1],
            map[FeeOwnerWsol(0) := h - 1 - TOKEN_RENT], 0)
  }

  lemma Awaited(h: nat)
    requires 1 <= h <= U64_MAX
    ensures var s := WithWaiting(h);
      && s.cfg == CONFIG && s.pools == map[] && s.clock == 0 && CoinCreatorAta(0) !in s.wsol
      && Balance(s.lamports, Launch(0)) == 0 && Balance(s.lamports, Wallet(9)) == LAUNCH_RENT
      && Balance(s.lamports, FeeVault(0)) == RENT && Balance(s.lamports, CreatorVault(0)) == 0
      && Balance(s.lamports, FeeOwner(0)) == RENT + Surplus(h)
      && Balance(s.lamports, FeeOwnerWsol(0)) == h - Surplus(h)
  {
  }

  ghost predicate Awaits(s: State, h: nat)
    requires 1 <= h <= U64_MAX
  {
    && s.cfg == CONFIG && s.clock == 0 && CoinCreatorAta(0) !in s.wsol
    && Balance(s.lamports, Launch(0)) == LAUNCH_RENT
    && Balance(s.lamports, FeeVault(0)) == RENT && Balance(s.lamports, CreatorVault(0)) == 0
    && Balance(s.lamports, FeeOwner(0)) == RENT + Surplus(h)
    && Balance(s.lamports, FeeOwnerWsol(0)) == h - Surplus(h)
  }

  lemma AwaitsCleanly(s: State, h: nat)
    requires 1 <= h <= U64_MAX && Awaits(s, h)
    ensures CleanVaults(s, 0) && Waiting(s, 0) == h
  {
    hide Surplus;
  }

  function JoinAndClaim(): seq<Instruction> {
    [] + [CREATE] + [FIRST] + [SECOND] + [CLAIM]
  }

  lemma TwoJoin(h: nat) returns (s1: State, s2: State, s3: State)
    requires 1 <= h <= U64_MAX
    ensures s1 == Execute(WithWaiting(h), CREATE) && s2 == Execute(s1, FIRST) && s3 == Execute(s2, SECOND)
    ensures Attempt(WithWaiting(h), CREATE).Ok? && Attempt(s1, FIRST).Ok? && Attempt(s2, SECOND).Ok?
    ensures s1.pools == map[0 := Pool(EMPTY_LAUNCH, map[], 0)] && s2.pools == map[0 := ALONE] && Waiting(s2, 0) == h
    ensures s3.pools == map[0 := TOGETHER] && Awaits(s3, h)
  {
    hide Attempt, Execute, WithWaiting, Surplus, CleanVaults, Waiting;
    var s := WithWaiting(h);
    Awaited(h);
    Creates(s);
    s1 := Execute(s, CREATE);
    AwaitsCleanly(s1, h);
    FirstStakes(s1);
    s2 := Execute(s1, FIRST);
    SameWaiting(s1, s2);
    SecondStakes(s2);
    s3 := Execute(s2, SECOND);
  }

  lemma ClaimsSurplus(s: State, h: nat)
    requires 1 <= h <= U64_MAX && Awaits(s, h) && s.pools == map[0 := TOGETHER]
    ensures Attempt(s, CLAIM).Ok? && ClaimedAmount(s, CLAIM) == Surplus(h)
  {
    hide Attempt, ApplyRewards, ClaimedAmount;
    BatchForTwo(Surplus(h));
    Claims(s, Surplus(h));
  }

  lemma WaitingIsDistributed(h: nat)
    requires 1 <= h <= U64_MAX
    ensures Tallied(WithWaiting(h), JoinAndClaim(), 0).claims == [Distribution(Surplus(h), h, 0, true)]
  {
    hide ExecuteAll, Tallied, Attempt, Execute, Stock, ClaimedAmount, Waiting, Arrival, WithWaiting, Surplus;
    var s := WithWaiting(h);
    TallyStarts(s);
    TallySnoc(s, [], CREATE);
    TallySnoc(s, [] + [CREATE], FIRST);
    TallySnoc(s, [] + [CREATE] + [FIRST], SECOND);
    TallySnoc(s, [] + [CREATE] + [FIRST] + [SECOND], CLAIM);
    var s1, s2, s3 := TwoJoin(h);
    ClaimsSurplus(s3, h);
    LastClaim(Tallied(s, [] + [CREATE], 0), s1, s2, s3, CLAIM);
  }

  /** Whenever `h` was waiting at the last join, no claim distributes more than has arrived since. */
  ghost predicate OnlyRecentAfter(h: nat) {
    forall s: State, ixs: seq<Instruction>, m: Pubkey, i: nat ::
      i < |Tallied(s, ixs, m).claims| && Tallied(s, ixs, m).claims[i].afterJoin && Tallied(s, ixs, m).claims[i].waited == h ==>
        Tallied(s, ixs, m).claims[i].amount <= Tallied(s, ixs, m).claims[i].recent
  }

  /**
   * Joiners are certain to earn no older fees exactly when nothing is waiting in the fee owner's
   * two accounts as they join.
   */
  lemma WaitingDecides(h: nat)
    requires h <= U64_MAX
    ensures OnlyRecentAfter(h) <==> h == 0
  {
    hide Tallied, ExecuteAll;
    if h == 0 {
      forall s: State, ixs: seq<Instruction>, m: Pubkey, i: nat
        | i < |Tallied(s, ixs, m).claims| && Tallied(s, ixs, m).claims[i].waited == 0
        ensures Tallied(s, ixs, m).claims[i].amount <= Tallied(s, ixs, m).claims[i].recent
      {
        EveryRunIsBalanced(s, ixs, m);
      }
    } else {
      WaitingIsDistributed(h);
      assert Tallied(WithWaiting(h), JoinAndClaim(), 0).claims[0] == Distribution(Surplus(h), h, 0, true);
    }
  }

  // ---- Fees collected ahead of a join ----

  const ACCRUED: u64 := 1_000_000_000
  const COLLECT := CollectWsol(0, ACCRUED)

  /** One SOL has accrued in the PumpSwap vault, and the fee owner's wrapped-SOL account is empty but for its rent. */
  function WithAccrued(): State {
    State(CONFIG, map[],
          map[Wallet(9) := LAUNCH_RENT, FeeVault(0) := RENT, CoinCreatorAta(0) := TOKEN_RENT + ACCRUED, FeeOwnerWsol(0) := TOKEN_RENT],
          map[CoinCreatorAta(0) := ACCRUED, FeeOwnerWsol(0) := 0], 0)
  }

  function CollectAndJoin(): seq<Instruction> {
    [] + [CREATE] + [FIRST] + [COLLECT] + [SECOND] + [SWAP_CLAIM]
  }

  /** The empty vaults, and what is where in wrapped SOL. */
  ghost predicate Holds(s: State, vault: nat, account: nat) {
    && s.cfg == CONFIG && s.clock == 0
    && s.wsol == map[CoinCreatorAta(0) := vault, FeeOwnerWsol(0) := account]
    && Balance(s.lamports, CoinCreatorAta(0)) == TOKEN_RENT + vault && Balance(s.lamports, FeeOwnerWsol(0)) == TOKEN_RENT + account
    && Balance(s.lamports, FeeVault(0)) == RENT && Balance(s.lamports, CreatorVault(0)) == 0 && Balance(s.lamports, FeeOwner(0)) == 0
  }

  lemma AccruedHolds()
    ensures var s := WithAccrued();
      && Holds(s, ACCRUED, 0) && s.pools == map[]
      && Balance(s.lamports, Launch(0)) == 0 && Balance(s.lamports, Wallet(9)) == LAUNCH_RENT
  {
  }

  lemma Collects(s: State)
    requires Holds(s, ACCRUED, 0)
    ensures Attempt(s, COLLECT).Ok?
    ensures var t := Execute(s, COLLECT);
      Holds(t, 0, ACCRUED) && t.pools == s.pools && Balance(t.lamports, Launch(0)) == Balance(s.lamports, Launch(0))
  {
    assert Attempt(s, COLLECT).Ok?;
    CollectEffect(s, 0, ACCRUED);
    hide Collect;
  }

  lemma HoldsCleanly(s: State)
    requires Holds(s, 0, ACCRUED)
    ensures CleanVaults(s, 0) && Waiting(s, 0) == TOKEN_RENT + ACCRUED
  {
  }

  /** The first stake comes into an empty pool, whatever the vaults hold. */
  lemma FirstStakesUnchecked(s: State)
    requires s.clock == 0 && s.pools == map[0 := Pool(EMPTY_LAUNCH, map[], 0)]
    ensures Attempt(s, FIRST).Ok? && Execute(s, FIRST) == s.(pools := map[0 := ALONE])
  {
    assert Opened(EMPTY_LAUNCH, 1, 10_000, 7 * DAY_SECONDS) == Ok(WEEK);
    hide CleanVaults;
  }

  lemma CollectedAheadOfJoin() returns (s1: State, s2: State, s3: State)
    ensures s1 == Execute(WithAccrued(), CREATE) && s2 == Execute(s1, FIRST) && s3 == Execute(s2, COLLECT)
    ensures Attempt(WithAccrued(), CREATE).Ok? && Attempt(s1, FIRST).Ok? && Attempt(s2, COLLECT).Ok?
    ensures s1.pools == map[0 := Pool(EMPTY_LAUNCH, map[], 0)]
    ensures s3.pools == map[0 := ALONE] && Holds(s3, 0, ACCRUED) && Balance(s3.lamports, Launch(0)) == LAUNCH_RENT
  {
    hide Attempt, Execute, WithAccrued;
    var s := WithAccrued();
    AccruedHolds();
    Creates(s);
    s1 := Execute(s, CREATE);
    FirstStakesUnchecked(s1);
    s2 := Execute(s1, FIRST);
    Collects(s2);
    s3 := Execute(s2, COLLECT);
  }

  lemma JoinAndSwapClaim(s3: State)
    requires s3.pools == map[0 := ALONE] && Holds(s3, 0, ACCRUED) && Balance(s3.lamports, Launch(0)) == LAUNCH_RENT
    ensures var s4 := Execute(s3, SECOND);
      && Attempt(s3, SECOND).Ok? && Attempt(s4, SWAP_CLAIM).Ok?
      && ClaimedAmount(s4, SWAP_CLAIM) == TOKEN_RENT + ACCRUED
      && var t := Execute(s4, SWAP_CLAIM);
         && 0 in t.pools && 2 in t.pools[0].positions
         && Owed(t.pools[0].positions[2], t.pools[0].launch.accRewardPerWeight) == 375_764_730
  {
    hide Attempt, Execute, ClaimedAmount, CleanVaults;
    HoldsCleanly(s3);
    SecondStakes(s3);
    BatchForTwo(TOKEN_RENT + ACCRUED);
    SwapClaims(Execute(s3, SECOND), TOKEN_RENT + ACCRUED);
    assert Left(TOKEN_RENT + ACCRUED) == 751_529_460;
  }

  /**
   * Fees that accrued before a join reach those who join after them, when a collection outside a
   * claim has emptied the vault the joining call looks at: nothing of what the claim distributes
   * arrived since the join, and the second staker is owed half of what the fee leaves.
   */
  lemma CollectedFeesReachJoiners()
    ensures Tallied(WithAccrued(), CollectAndJoin(), 0).claims
         == [Distribution(TOKEN_RENT + ACCRUED, TOKEN_RENT + ACCRUED, 0, true)]
    ensures var t := ExecuteAll(WithAccrued(), CollectAndJoin());
      && 0 in t.pools && 2 in t.pools[0].positions
      && Owed(t.pools[0].positions[2], t.pools[0].launch.accRewardPerWeight) == 375_764_730
  {
    hide ExecuteAll, Tallied, Attempt, Execute, Stock, ClaimedAmount, Waiting, Arrival, CleanVaults, Owed, WithAccrued;
    var s := WithAccrued();
    TallyStarts(s);
    TallySnoc(s, [], CREATE);
    TallySnoc(s, [] + [CREATE], FIRST);
    TallySnoc(s, [] + [CREATE] + [FIRST], COLLECT);
    TallySnoc(s, [] + [CREATE] + [FIRST] + [COLLECT], SECOND);
    TallySnoc(s, [] + [CREATE] + [FIRST] + [COLLECT] + [SECOND], SWAP_CLAIM);
    var s1, s2, s3 := CollectedAheadOfJoin();
    HoldsCleanly(s3);
    JoinAndSwapClaim(s3);
    LastOfFour(Tallied(s, [] + [CREATE], 0), s1, s2, s3, Execute(s3, SECOND));
  }

  lemma LastOfFour(r: Tally, s1: State, s2: State, s3: State, s4: State)
    requires Attempt(s1, FIRST).Ok? && Attempt(s2, COLLECT).Ok? && Attempt(s3, SECOND).Ok? && Attempt(s4, SWAP_CLAIM).Ok?
    requires s1.pools == map[0 := Pool(EMPTY_LAUNCH, map[], 0)] && s3.pools == map[0 := ALONE]
    ensures Joiners.Next(s4, SWAP_CLAIM,
              Joiners.Next(s3, SECOND, Joiners.Next(s2, COLLECT, Joiners.Next(s1, FIRST, r, 0), 0), 0), 0).claims
         == r.claims + [Distribution(ClaimedAmount(s4, SWAP_CLAIM), Waiting(s3, 0), 0, true)]
  {
    hide Attempt, Waiting, ClaimedAmount, Arrival;
  }
}
