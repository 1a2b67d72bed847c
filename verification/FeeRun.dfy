/** A claim on another launch than the main one, from the creator vault to the wallets of both stakers' pools. */
module FeeRun {
  import opened Types
  import opened Rewards
  import opened Pool
  import opened Lamports
  import opened SolProgram
  import opened Routing
  import opened FeeClaims
  import opened FeeCalls
  import opened Scenes

  /** One SOL of fees, the amount a claim collects here. */
  const FEES: u64 := 1_000_000_000

  const CREATE_OTHER := InitializeLaunch(1, 9, 0)
  const MAIN_STAKE := StakeTokens(0, 1, 1_000, 7, 1_000)
  const OTHER_STAKE := StakeTokens(1, 2, 1_000, 7, 1_000)
  const COLLECTING := ClaimPumpFees(1, 9, FEES, [Launch(0)])

  /** The fees have accrued in the creator vault of launch 1, and a payer is there. */
  function Accrued(): State {
    State(CONFIG, map[], map[Wallet(9) := 2 * LAUNCH_RENT + 2 * RENT, CreatorVault(1) := RENT + FEES], map[], 0)
  }

  const THOUSAND := StakePosition(1_000, 1_000, 604_800, 0)
  const MAIN_POOL := Pool(LaunchConfig(1_000, 0, 0), map[1 := THOUSAND], 1_000)
  const OTHER_POOL := Pool(LaunchConfig(1_000, 0, 0), map[2 := THOUSAND], 1_000)

  lemma ThousandStakes(owner: Pubkey, clean: bool)
    ensures Step(Pool(EMPTY_LAUNCH, map[], 0), Stake(owner, 1_000, 7, 1_000, clean), 0)
         == Ok(Outcome(Pool(LaunchConfig(1_000, 0, 0), map[owner := THOUSAND], 1_000), 0))
  {
    assert Opened(EMPTY_LAUNCH, 1_000, 10_000, 604_800) == Ok(THOUSAND);
  }

  /** Before the claim: two launches with a staker each, their rent, and the fees in the vault. */
  ghost predicate Staked(s: State) {
    && s.cfg == CONFIG && s.clock == 0 && s.wsol == map[]
    && s.pools == map[0 := MAIN_POOL, 1 := OTHER_POOL]
    && Balance(s.lamports, Launch(0)) == LAUNCH_RENT && Balance(s.lamports, Launch(1)) == LAUNCH_RENT
    && Balance(s.lamports, Wallet(9)) == 2 * RENT && Balance(s.lamports, Wallet(2)) == 0
    && Balance(s.lamports, CreatorVault(1)) == RENT + FEES
    && Balance(s.lamports, FeeOwner(1)) == 0 && Balance(s.lamports, FeeVault(1)) == 0
  }

  lemma StakeGoes(s: State, m: Pubkey, owner: Pubkey)
    requires s.clock == 0 && m in s.pools && s.pools[m] == Pool(EMPTY_LAUNCH, map[], 0)
    ensures var ix := StakeTokens(m, owner, 1_000, 7, 1_000);
      && Attempt(s, ix).Ok?
      && Execute(s, ix) == s.(pools := s.pools[m := Pool(LaunchConfig(1_000, 0, 0), map[owner := THOUSAND], 1_000)])
  {
    ThousandStakes(owner, CleanVaults(s, m));
    hide Step, CleanVaults;
  }

  lemma AccruedHolds(s: State)
    requires s == Accrued()
    ensures s.cfg == CONFIG && s.pools == map[] && s.wsol == map[] && s.clock == 0
    ensures Balance(s.lamports, Launch(0)) == 0 && Balance(s.lamports, Launch(1)) == 0
    ensures Balance(s.lamports, Wallet(9)) == 2 * LAUNCH_RENT + 2 * RENT && Balance(s.lamports, Wallet(2)) == 0
    ensures Balance(s.lamports, CreatorVault(1)) == RENT + FEES
    ensures Balance(s.lamports, FeeOwner(1)) == 0 && Balance(s.lamports, FeeVault(1)) == 0
  {
  }

  lemma CreationPays(s: State, m: Pubkey)
    requires s.cfg == CONFIG && m !in s.pools && Balance(s.lamports, Launch(m)) == 0 && Balance(s.lamports, Wallet(9)) >= LAUNCH_RENT
    ensures var t := Execute(s, InitializeLaunch(m, 9, 0));
      && t == s.(pools := s.pools[m := Pool(EMPTY_LAUNCH, map[], 0)], lamports := t.lamports)
      && Balance(t.lamports, Launch(m)) == LAUNCH_RENT
      && Balance(t.lamports, Wallet(9)) == Balance(s.lamports, Wallet(9)) - LAUNCH_RENT
      && forall a: Address :: a != Launch(m) && a != Wallet(9) ==> Balance(t.lamports, a) == Balance(s.lamports, a)
  {
    hide Attempt, Execute, Balance;
    CreationSucceedsExactly(s, m, 9, 0);
  }

  lemma BothStake() returns (s: State)
    ensures s == Execute(Execute(Execute(Execute(Accrued(), CREATE), CREATE_OTHER), MAIN_STAKE), OTHER_STAKE)
    ensures Staked(s)
  {
    hide Attempt, Execute, Accrued, Balance;
    var s0 := Accrued();
    AccruedHolds(s0);
    CreationPays(s0, 0);
    var s1 := Execute(s0, CREATE);
    CreationPays(s1, 1);
    var s2 := Execute(s1, CREATE_OTHER);
    StakeGoes(s2, 0, 1);
    var s3 := Execute(s2, MAIN_STAKE);
    StakeGoes(s3, 1, 2);
    s := Execute(s3, OTHER_STAKE);
    assert s.pools == map[0 := MAIN_POOL, 1 := OTHER_POOL];
  }

  /** A quarter is the fee, a twentieth of the rest the main coin's, the others share what remains. */
  lemma Parts()
    ensures FeePart(FEES) == 250_000_000 && MainPart(FEES) == 37_500_000
    ensures BatchFits(MAIN_POOL.launch, 37_500_000) && BatchFits(OTHER_POOL.launch, 712_500_000)
    ensures ApplyRewards(MAIN_POOL.launch, 37_500_000) == Ok(LaunchConfig(1_000, 37_500 * PRECISION, 37_500_000))
    ensures ApplyRewards(OTHER_POOL.launch, 712_500_000) == Ok(LaunchConfig(1_000, 712_500 * PRECISION, 712_500_000))
  {
    assert Increment(37_500_000, 1_000) == 37_500 * PRECISION;
    assert Increment(712_500_000, 1_000) == 712_500 * PRECISION;
  }

  lemma ClaimCollects(s: State)
    requires Staked(s)
    ensures Attempt(s, COLLECTING).Ok? && ClaimedAmount(s, COLLECTING) == FEES
  {
    Parts();
    PumpClaimSucceedsExactly(s, 1, 9, FEES, [Launch(0)]);
    hide Attempt, BatchFits, FeePart, MainPart, Balance;
  }

  lemma TookShares(s: State, t: State)
    requires SharedOut(s, t, 1, 9, FEES)
    ensures PoolsTookShares(s, t, 1, FEES) && t.clock == s.clock
  {
  }

  lemma TookBatch(p: Pool, q: Pool, share: u64, after: LaunchConfig)
    requires share > 0 && PoolTookShare(p, q, share) && ApplyRewards(p.launch, share) == Ok(after)
    ensures q == p.(launch := after)
  {
    hide ApplyRewards;
  }

  lemma PoolsGain(s: State, t: State)
    requires Staked(s) && SharedOut(s, t, 1, 9, FEES)
    ensures t.clock == 0
    ensures t.pools == map[0 := MAIN_POOL.(launch := LaunchConfig(1_000, 37_500 * PRECISION, 37_500_000)),
                           1 := OTHER_POOL.(launch := LaunchConfig(1_000, 712_500 * PRECISION, 712_500_000))]
  {
    hide ShareOf, FeeOf, FeePart, MainPart, ApplyRewards, BatchFits, Balance, SharedOut, PoolTookShare;
    SharesAreParts(CONFIG, 1, FEES, 0);
    SharesAreParts(CONFIG, 1, FEES, 1);
    Parts();
    TookShares(s, t);
    TookBatch(s.pools[0], t.pools[0], 37_500_000, LaunchConfig(1_000, 37_500 * PRECISION, 37_500_000));
    TookBatch(s.pools[1], t.pools[1], 712_500_000, LaunchConfig(1_000, 712_500 * PRECISION, 712_500_000));
  }

  lemma LamportsGain(s: State, t: State)
    requires Staked(s) && SharedOut(s, t, 1, 9, FEES)
    ensures Balance(t.lamports, Launch(0)) == LAUNCH_RENT + 37_500_000
    ensures Balance(t.lamports, Launch(1)) == LAUNCH_RENT + 712_500_000
    ensures Balance(t.lamports, FeeVault(1)) == RENT + 250_000_000
    ensures Balance(t.lamports, Wallet(2)) == 0
  {
    SharesAreParts(CONFIG, 1, FEES, 0);
    SharesAreParts(CONFIG, 1, FEES, 1);
    Parts();
    assert !Involved(CONFIG, 1, 9, Wallet(2));
    hide ShareOf, FeeOf, FeePart, MainPart, PoolsTookShares, BatchFits, ApplyRewards, Balance;
  }

  /**
   * The claim collects one SOL from the creator vault of launch 1: a quarter goes to the fee vault,
   * the main launch and launch 1 gain their parts in lamports and in reserve, the fee owner keeps
   * its rent, and each staker is owed its pool's whole part.
   */
  lemma BothLaunchesGain(s: State)
    requires Staked(s)
    ensures Attempt(s, COLLECTING).Ok?
    ensures var t := Execute(s, COLLECTING);
      && t.clock == 0
      && t.pools == map[0 := MAIN_POOL.(launch := LaunchConfig(1_000, 37_500 * PRECISION, 37_500_000)),
                        1 := OTHER_POOL.(launch := LaunchConfig(1_000, 712_500 * PRECISION, 712_500_000))]
      && Balance(t.lamports, Launch(0)) == LAUNCH_RENT + 37_500_000
      && Balance(t.lamports, Launch(1)) == LAUNCH_RENT + 712_500_000
      && Balance(t.lamports, FeeVault(1)) == RENT + 250_000_000
      && Balance(t.lamports, FeeOwner(1)) == RENT && Balance(t.lamports, CreatorVault(1)) == RENT
      && Balance(t.lamports, Wallet(2)) == 0
      && Owed(t.pools[0].positions[1], t.pools[0].launch.accRewardPerWeight) == 37_500_000
      && Owed(t.pools[1].positions[2], t.pools[1].launch.accRewardPerWeight) == 712_500_000
  {
    ClaimCollects(s);
    PumpClaimShares(s, 1, 9, FEES, [Launch(0)]);
    var t := Execute(s, COLLECTING);
    assert t == PumpClaim(s, 1, 9, FEES, [Launch(0)]).value;
    hide Attempt, Execute, PumpClaim, SharedOut, ClaimedAmount, Balance;
    PoolsGain(s, t);
    LamportsGain(s, t);
  }

  // ---- And out again ----

  const TAKE := ClaimRewards(1, 2)
  const LEAVE := UnstakeTokens(1, 2)

  const REWARDED := Pool(LaunchConfig(1_000, 712_500 * PRECISION, 712_500_000), map[2 := THOUSAND], 1_000)
  const PAID := Pool(LaunchConfig(1_000, 712_500 * PRECISION, 0), map[2 := THOUSAND.(rewardDebt := 712_500_000)], 1_000)
  const EMPTIED := Pool(LaunchConfig(0, 712_500 * PRECISION, 0), map[], 0)

  lemma TakingAndLeaving()
    ensures Step(REWARDED, Claim(2), 0) == Ok(Outcome(PAID, 712_500_000))
    ensures Step(PAID, Unstake(2), 604_800) == Ok(Outcome(EMPTIED, 0))
  {
    assert RewardDebt(1_000, 712_500 * PRECISION) == Ok(712_500_000);
    assert REWARDED.positions[2 := THOUSAND.(rewardDebt := 712_500_000)] == PAID.positions;
    assert PAID.positions - {2} == map[];
  }

  /**
   * From there the staker of launch 1 is paid its lamports, and once a week has passed it takes out
   * its tokens and leaves the launch empty.
   */
  lemma StakerIsPaidAndLeaves(t: State)
    requires t.clock == 0 && 1 in t.pools && t.pools[1] == REWARDED
    requires Balance(t.lamports, Launch(1)) == LAUNCH_RENT + 712_500_000 && Balance(t.lamports, Wallet(2)) == 0
    ensures var paid := Execute(t, TAKE);
      var later := Execute(paid, AdvanceClock(604_800));
      var left := Execute(later, LEAVE);
      && Attempt(t, TAKE).Ok? && Attempt(later, LEAVE).Ok?
      && Balance(paid.lamports, Wallet(2)) == 712_500_000 && Balance(paid.lamports, Launch(1)) == LAUNCH_RENT
      && 1 in left.pools && left.pools[1] == EMPTIED && Balance(left.lamports, Wallet(2)) == 712_500_000
  {
    TakingAndLeaving();
    MoveSucceedsExactly(t.lamports, Launch(1), Wallet(2), 712_500_000);
    MoveConserves(t.lamports, Launch(1), Wallet(2), 712_500_000);
    hide Step;
  }

  /** The whole run: creation, stakes, a collecting claim, a reward claim, a week, an unstake. */
  lemma FeesReachTheStaker() returns (s: State, left: State)
    ensures s == Execute(Execute(Execute(Execute(Accrued(), CREATE), CREATE_OTHER), MAIN_STAKE), OTHER_STAKE)
    ensures left == Execute(Execute(Execute(Execute(s, COLLECTING), TAKE), AdvanceClock(604_800)), LEAVE)
    ensures 1 in left.pools && left.pools[1] == EMPTIED && Balance(left.lamports, Wallet(2)) == 712_500_000
  {
    hide Attempt, Execute, Accrued, Balance, Staked;
    s := BothStake();
    BothLaunchesGain(s);
    var t := Execute(s, COLLECTING);
    assert t.pools[1] == REWARDED;
    StakerIsPaidAndLeaves(t);
    left := Execute(Execute(Execute(t, TAKE), AdvanceClock(604_800)), LEAVE);
  }
}
