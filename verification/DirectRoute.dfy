/** Launches on the direct fee route: what has been collected from their creator vaults, and when it accrued. */
module DirectRoute {
  import opened Types
  import opened Rewards
  import opened Pool
  import opened Lamports
  import opened SolProgram
  import opened Routing
  import opened FeeClaims
  import opened SolRuns

  /** One collection from a creator vault, and how much had accrued there since the last join. */
  datatype Sweep = Sweep(collected: nat, available: int)

  /**
   * What has come into and gone out of the two creator vaults of a launch since weight was last
   * added to its active pool, and every collection of the run.
   */
  datatype Since = Since(accrued: nat, swept: nat, wsolAccrued: nat, wsolSwept: nat, sweeps: seq<Sweep>)

  function WsolHeld(s: State, a: Address): nat {
    if a in s.wsol then s.wsol[a] else 0
  }

  function Beginning(s: State, m: Pubkey): Since {
    Since(Balance(s.lamports, CreatorVault(m)), 0, WsolHeld(s, CoinCreatorAta(m)), 0, [])
  }

  /** Weight is added to the pool of `m` while other weight is active. */
  predicate Joins(s: State, ix: Instruction, m: Pubkey) {
    || (ix.StakeTokens? && ix.mint == m && m in s.pools && s.pools[m].launch.totalWeightedStake > 0)
    || (ix.IncreaseTokens? && ix.mint == m)
  }

  function After(s: State, ix: Instruction, r: Since, m: Pubkey): Since {
    if Attempt(s, ix).Err? then r
    else if Joins(s, ix, m) then Since(0, 0, 0, 0, r.sweeps)
    else if ix.ClaimPumpFees? && ix.mint == m then
      r.(swept := r.swept + ix.collected, sweeps := r.sweeps + [Sweep(ix.collected, r.accrued - r.swept)])
    else if (ix.ClaimPumpSwapFees? || ix.CollectWsol?) && ix.mint == m then
      r.(wsolSwept := r.wsolSwept + ix.collected, sweeps := r.sweeps + [Sweep(ix.collected, r.wsolAccrued - r.wsolSwept)])
    else
      r.(accrued := r.accrued + Inflow(ix, CreatorVault(m)),
      wsolAccrued := r.wsolAccrued + if ix.DepositWsol? && ix.to == CoinCreatorAta(m) then ix.amount else 0)
  }

  function Tracked(s: State, ixs: seq<Instruction>, m: Pubkey): Since
    decreases |ixs|
  {
    if ixs == [] then Beginning(s, m)
    else
      var front, last := ixs[..|ixs| - 1], ixs[|ixs| - 1];
      After(ExecuteAll(s, front), last, Tracked(s, front, m), m)
  }

  /** What can still be swept is fresh, and so was everything that has been. */
  ghost predicate OnlyFresh(s: State, r: Since, m: Pubkey) {
    && Balance(s.lamports, CreatorVault(m)) + r.swept <= s.cfg.creatorFloor + r.accrued
    && r.swept <= r.accrued
    && WsolHeld(s, CoinCreatorAta(m)) + r.wsolSwept <= r.wsolAccrued
    && forall i :: 0 <= i < |r.sweeps| ==> r.sweeps[i].collected <= r.sweeps[i].available
  }

  /** A fee claim on `m` could collect this much from one of its creator vaults. */
  predicate CanCollect(s: State, m: Pubkey, collected: nat) {
    || s.cfg.creatorFloor + collected <= Balance(s.lamports, CreatorVault(m))
    || (CoinCreatorAta(m) in s.wsol && collected <= s.wsol[CoinCreatorAta(m)])
  }

  /** The vaults count as clean exactly when no positive amount can be collected from either. */
  lemma CleanMeansNothingToCollect(s: State, m: Pubkey)
    ensures CleanVaults(s, m) <==> forall collected: nat :: collected > 0 ==> !CanCollect(s, m, collected)
  {
    if !CleanVaults(s, m) {
      assert CanCollect(s, m, 1);
    }
  }

  lemma JoinNeedsCleanVaults(s: State, ix: Instruction, m: Pubkey)
    requires Joins(s, ix, m) && Attempt(s, ix).Ok?
    ensures CleanVaults(s, m)
  {
    hide Move, CleanVaults, Opened, Pending, PayRewards;
  }

  lemma StakingLeavesVaults(s: State, mint: Pubkey, op: Op, owner: Pubkey, m: Pubkey)
    requires StakingStep(s, mint, op, owner).Ok?
    ensures var t := StakingStep(s, mint, op, owner).value;
      && t.cfg == s.cfg && t.wsol == s.wsol
      && Balance(t.lamports, CreatorVault(m)) == Balance(s.lamports, CreatorVault(m))
  {
    hide Step;
    MoveConserves(s.lamports, Launch(mint), Wallet(owner), Step(s.pools[mint], op, s.clock).value.paid);
  }

  lemma StakingStaysFresh(s: State, ix: Instruction, r: Since, m: Pubkey)
    requires OnlyFresh(s, r, m) && Attempt(s, ix).Ok?
    requires ix.StakeTokens? || ix.IncreaseTokens? || ix.ClaimRewards? || ix.UnstakeTokens?
    ensures OnlyFresh(Attempt(s, ix).value, After(s, ix, r, m), m)
  {
    if Joins(s, ix, m) {
      JoinNeedsCleanVaults(s, ix, m);
    }
    var clean := CleanVaults(s, ix.mint);
    hide StakingStep;
    match ix
    case StakeTokens(mint, owner, amount, lockDays, funds) =>
      StakingLeavesVaults(s, mint, Stake(owner, amount, lockDays, funds, clean), owner, m);
    case IncreaseTokens(mint, owner, amount, lockDays, funds) =>
      StakingLeavesVaults(s, mint, Increase(owner, amount, lockDays, funds, clean), owner, m);
    case ClaimRewards(mint, owner) => StakingLeavesVaults(s, mint, Claim(owner), owner, m);
    case UnstakeTokens(mint, owner) => StakingLeavesVaults(s, mint, Unstake(owner), owner, m);
  }

  lemma PumpClaimStaysFresh(s: State, ix: Instruction, r: Since, m: Pubkey)
    requires OnlyFresh(s, r, m) && ix.ClaimPumpFees? && Attempt(s, ix).Ok?
    ensures OnlyFresh(Attempt(s, ix).value, After(s, ix, r, m), m)
  {
    hide PumpClaim, PoolsTookShares, ClaimedAmount, ShareOf, FeeOf;
    PumpClaimShares(s, ix.mint, ix.payer, ix.collected, ix.remaining);
    assert m != ix.mint ==> !Involved(s.cfg, ix.mint, ix.payer, CreatorVault(m));
  }

  lemma PumpSwapClaimStaysFresh(s: State, ix: Instruction, r: Since, m: Pubkey)
    requires OnlyFresh(s, r, m) && ix.ClaimPumpSwapFees? && Attempt(s, ix).Ok?
    ensures OnlyFresh(Attempt(s, ix).value, After(s, ix, r, m), m)
  {
    hide PumpSwapClaim, PoolsTookShares, ClaimedAmount, ShareOf, FeeOf;
    PumpSwapClaimShares(s, ix.mint, ix.payer, ix.collected, ix.remaining);
    assert m != ix.mint ==> !Involved(s.cfg, ix.mint, ix.payer, CreatorVault(m));
  }

  lemma InflowStaysFresh(s: State, ix: Instruction, r: Since, m: Pubkey)
    requires OnlyFresh(s, r, m) && (ix.Deposit? || ix.DepositWsol? || ix.OpenWsol?) && Attempt(s, ix).Ok?
    ensures OnlyFresh(Attempt(s, ix).value, After(s, ix, r, m), m)
  {
    InflowReceived(s, ix);
    hide Attempt, Inflow, TotalInflow;
  }

  lemma CollectionStaysFresh(s: State, ix: Instruction, r: Since, m: Pubkey)
    requires OnlyFresh(s, r, m) && ix.CollectWsol? && Attempt(s, ix).Ok?
    ensures OnlyFresh(Attempt(s, ix).value, After(s, ix, r, m), m)
  {
    CollectEffect(s, ix.mint, ix.collected);
    hide Collect;
  }

  lemma QuietStaysFresh(s: State, ix: Instruction, r: Since, m: Pubkey)
    requires OnlyFresh(s, r, m) && Quiet(ix) && Attempt(s, ix).Ok?
    ensures OnlyFresh(Attempt(s, ix).value, After(s, ix, r, m), m)
  {
    QuietLeavesFees(s, ix);
    hide Attempt;
  }

  lemma {:induction false} TransactionStaysFresh(s: State, ix: Instruction, r: Since, m: Pubkey)
    requires OnlyFresh(s, r, m)
    ensures OnlyFresh(Execute(s, ix), After(s, ix, r, m), m)
  {
    hide Attempt, OnlyFresh;
    if Attempt(s, ix).Ok? {
      if ix.StakeTokens? || ix.IncreaseTokens? || ix.ClaimRewards? || ix.UnstakeTokens? {
        StakingStaysFresh(s, ix, r, m);
      } else if ix.ClaimPumpFees? {
        PumpClaimStaysFresh(s, ix, r, m);
      } else if ix.ClaimPumpSwapFees? {
        PumpSwapClaimStaysFresh(s, ix, r, m);
      } else if ix.CollectWsol? {
        CollectionStaysFresh(s, ix, r, m);
      } else if Quiet(ix) {
        QuietStaysFresh(s, ix, r, m);
      } else {
        InflowStaysFresh(s, ix, r, m);
      }
    }
  }

  /**
   * In every run, each collection from a launch's creator vaults, by a claim or by anybody else,
   * took no more than what had accrued there, and had not been collected, since weight was last
   * added to its active pool. What a claim then distributes is the subject of module Joiners.
   */
  lemma {:induction false} VaultCollectionsAreFresh(s: State, ixs: seq<Instruction>, m: Pubkey)
    ensures OnlyFresh(ExecuteAll(s, ixs), Tracked(s, ixs, m), m)
    decreases |ixs|
  {
    if ixs != [] {
      hide Execute, After, OnlyFresh;
      VaultCollectionsAreFresh(s, ixs[..|ixs| - 1], m);
      TransactionStaysFresh(ExecuteAll(s, ixs[..|ixs| - 1]), ixs[|ixs| - 1], Tracked(s, ixs[..|ixs| - 1], m), m);
    }
  }
}
