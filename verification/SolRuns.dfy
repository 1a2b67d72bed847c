/** What every run of SOL transactions keeps: lamports, backing, and each launch's own guarantees. */
module SolRuns {
  import opened Types
  import opened Sums
  import opened Pool
  import opened Lamports
  import opened SolProgram
  import opened Routing
  import opened FeeClaims

  // ---- Lamports ----

  /** What a successful transaction brings in from outside, and to which account. */
  function Inflow(ix: Instruction, a: Address): nat {
    match ix
    case Deposit(to, amount) => if to == a then amount else 0
    case DepositWsol(to, amount) => if to == a then amount else 0
    case OpenWsol(to, rent) => if to == a then rent else 0
    case _ => 0
  }

  function TotalInflow(ix: Instruction): nat {
    match ix
    case Deposit(_, amount) => amount
    case DepositWsol(_, amount) => amount
    case OpenWsol(_, rent) => rent
    case _ => 0
  }

  /** The rent that the creator of launch `m` puts into its account. */
  function RentPaid(s: State, ix: Instruction, m: Pubkey): nat {
    if ix.InitializeLaunch? && ix.mint == m && Balance(s.lamports, Launch(m)) < s.cfg.launchFloor then
      s.cfg.launchFloor - Balance(s.lamports, Launch(m))
    else
      0
  }

  /** What backs launch `m` beyond its reward reserve: its rent and whatever outsiders sent it. */
  function Base(s: State, m: Pubkey): int {
    Balance(s.lamports, Launch(m)) - Reserve(s, m)
  }

  /** A transaction conserves lamports, and moves a launch's lamports exactly as its reserve. */
  ghost predicate Accounted(s: State, t: State, ix: Instruction) {
    && Sum(t.lamports) == Sum(s.lamports) + TotalInflow(ix)
    && forall m: Pubkey :: Base(t, m) == Base(s, m) + Inflow(ix, Launch(m)) + RentPaid(s, ix, m)
  }

  lemma ReserveAfterStep(p: Pool, op: Op, now: i64)
    requires !op.Apply? && Step(p, op, now).Ok?
    ensures var out := Step(p, op, now).value;
      out.pool.launch.rewardReserve == p.launch.rewardReserve - out.paid
  {
  }

  lemma StakingIsAccounted(s: State, mint: Pubkey, op: Op, owner: Pubkey, ix: Instruction)
    requires !op.Apply? && StakingStep(s, mint, op, owner).Ok?
    requires TotalInflow(ix) == 0 && !ix.InitializeLaunch? && forall a :: Inflow(ix, a) == 0
    ensures Accounted(s, StakingStep(s, mint, op, owner).value, ix)
  {
    ReserveAfterStep(s.pools[mint], op, s.clock);
    hide Step;
    MoveConserves(s.lamports, Launch(mint), Wallet(owner), Step(s.pools[mint], op, s.clock).value.paid);
  }

  lemma ShareFillsReserve(p: Pool, q: Pool, share: nat)
    requires PoolTookShare(p, q, share)
    ensures q.launch.rewardReserve == p.launch.rewardReserve + share
    ensures q.positions == p.positions && q.vault == p.vault
    ensures q.launch.totalWeightedStake == p.launch.totalWeightedStake
  {
  }

  lemma FeeClaimIsAccounted(s: State, t: State, mint: Pubkey, payer: Pubkey, amount: u64, ix: Instruction)
    requires SharedOut(s, t, mint, payer, amount)
    requires mint in s.pools && (ShareOf(s.cfg, mint, amount, s.cfg.mainMint) > 0 ==> s.cfg.mainMint in s.pools)
    requires TotalInflow(ix) == 0 && !ix.InitializeLaunch? && forall a :: Inflow(ix, a) == 0
    ensures Accounted(s, t, ix)
  {
    hide ApplyRewards;
    SharesAddUp(s.cfg, mint, amount);
    hide ShareOf;
    forall m: Pubkey
      ensures Base(t, m) == Base(s, m)
    {
      if m in s.pools {
        ShareFillsReserve(s.pools[m], t.pools[m], ShareOf(s.cfg, mint, amount, m));
      }
    }
  }

  lemma PumpSweepSame(s: State, mint: Pubkey, payer: Pubkey, collected: u64)
    requires PumpSweep(s, mint, payer, collected).Ok?
    ensures var out := PumpSweep(s, mint, payer, collected).value;
      out.amount == ClaimedAmount(s, ClaimPumpFees(mint, payer, collected, [])) > 0 && out.state.pools == s.pools
      && out.state.cfg == s.cfg
  {
    PumpSweepEffect(s, mint, payer, collected);
  }

  lemma PumpSwapSweepSame(s: State, mint: Pubkey, payer: Pubkey, collected: u64)
    requires PumpSwapSweep(s, mint, collected).Ok?
    ensures var out := PumpSwapSweep(s, mint, collected).value;
      out.amount == ClaimedAmount(s, ClaimPumpSwapFees(mint, payer, collected, [])) > 0 && out.state.pools == s.pools
      && out.state.cfg == s.cfg
  {
    PumpSwapSweepEffect(s, mint, payer, collected);
  }

  lemma NamedMainIsChecked(s: State, ix: Instruction)
    requires IsFeeClaim(ix) && Attempt(s, ix).Ok? && ix.mint != s.cfg.mainMint
    ensures ix.remaining != []
    ensures ShareOf(s.cfg, ix.mint, ClaimedAmount(s, ix), s.cfg.mainMint) > 0 ==>
              ix.remaining[0] == Launch(s.cfg.mainMint) && s.cfg.mainMint in s.pools
  {
    hide PumpSweep, PumpSwapSweep, Route, ShareOf;
    match ix
    case ClaimPumpFees(mint, payer, collected, remaining) =>
      PumpSweepSame(s, mint, payer, collected);
      var swept := PumpSweep(s, mint, payer, collected).value;
      RouteNeedsMain(swept.state, mint, payer, MainAccount(s.cfg, mint, remaining).value, swept.amount);
    case ClaimPumpSwapFees(mint, payer, collected, remaining) =>
      PumpSwapSweepSame(s, mint, payer, collected);
      var swept := PumpSwapSweep(s, mint, collected).value;
      RouteNeedsMain(swept.state, mint, payer, MainAccount(s.cfg, mint, remaining).value, swept.amount);
  }

  lemma MainTakesNoAccount(s: State, ix: Instruction, other: seq<Address>)
    requires IsFeeClaim(ix) && ix.mint == s.cfg.mainMint
    ensures Attempt(s, ix.(remaining := other)) == Attempt(s, ix)
  {
    if ix.ClaimPumpFees? && PumpSweep(s, ix.mint, ix.payer, ix.collected).Ok? {
      PumpSweepSame(s, ix.mint, ix.payer, ix.collected);
    } else if ix.ClaimPumpSwapFees? && PumpSwapSweep(s, ix.mint, ix.collected).Ok? {
      PumpSwapSweepSame(s, ix.mint, ix.payer, ix.collected);
    }
    hide PumpSweep, PumpSwapSweep, Route;
  }

  /**
   * A claim on any launch but the main one must name an account for the main coin, even when its
   * share comes to nothing; when it does not, that account is the main launch, and it exists. A
   * claim on the main launch takes no account: it does the same with any list.
   */
  lemma MainAccountIsChecked(s: State, ix: Instruction)
    requires IsFeeClaim(ix)
    ensures ix.mint == s.cfg.mainMint ==>
              forall other: seq<Address> :: Attempt(s, ix.(remaining := other)) == Attempt(s, ix)
    ensures ix.mint != s.cfg.mainMint && Attempt(s, ix).Ok? ==>
              && ix.remaining != []
              && (ShareOf(s.cfg, ix.mint, ClaimedAmount(s, ix), s.cfg.mainMint) > 0 ==>
                    ix.remaining[0] == Launch(s.cfg.mainMint) && s.cfg.mainMint in s.pools)
  {
    hide Attempt, ShareOf, ClaimedAmount;
    if ix.mint == s.cfg.mainMint {
      forall other: seq<Address>
        ensures Attempt(s, ix.(remaining := other)) == Attempt(s, ix)
      {
        MainTakesNoAccount(s, ix, other);
      }
    } else if Attempt(s, ix).Ok? {
      NamedMainIsChecked(s, ix);
    }
  }

  /** A fee claim needs its launch, and the main launch when that is to receive something. */
  lemma ClaimNeedsLaunches(s: State, ix: Instruction)
    requires IsFeeClaim(ix) && Attempt(s, ix).Ok?
    ensures ix.mint in s.pools
    ensures ShareOf(s.cfg, ix.mint, ClaimedAmount(s, ix), s.cfg.mainMint) > 0 ==> s.cfg.mainMint in s.pools
  {
    hide PumpSweep, PumpSwapSweep, RouteSwept, ShareOf, ClaimedAmount;
    assert RequireActiveStake(s, ix.mint).Ok?;
    if ix.mint != s.cfg.mainMint {
      NamedMainIsChecked(s, ix);
    }
  }

  lemma ReceiveAdds(l: Balances, to: Address, amount: u64)
    requires Receive(l, to, amount).Ok?
    ensures var m := Receive(l, to, amount).value;
      && Sum(m) == Sum(l) + amount
      && forall a :: Balance(m, a) == Balance(l, a) + (if a == to then amount else 0)
  {
    PutSum(l, to, Balance(l, to) + amount);
  }

  /** What arrives from outside lands on the account it is sent to, and changes nothing else but wrapped SOL. */
  lemma InflowReceived(s: State, ix: Instruction)
    requires (ix.Deposit? || ix.DepositWsol? || ix.OpenWsol?) && Attempt(s, ix).Ok?
    ensures var t := Attempt(s, ix).value;
      && t == s.(lamports := t.lamports, wsol := t.wsol)
      && Sum(t.lamports) == Sum(s.lamports) + TotalInflow(ix)
      && (forall a: Address :: Balance(t.lamports, a) == Balance(s.lamports, a) + Inflow(ix, a))
      && (ix.Deposit? ==> t.wsol == s.wsol)
      && (ix.DepositWsol? ==> ix.to in s.wsol && t.wsol == s.wsol[ix.to := s.wsol[ix.to] + ix.amount])
      && (ix.OpenWsol? ==> ix.to !in s.wsol && t.wsol == s.wsol[ix.to := 0])
  {
    match ix
    case Deposit(to, amount) =>
      ReceiveAdds(s.lamports, to, amount);
      hide Receive;
    case DepositWsol(to, amount) =>
      ReceiveAdds(s.lamports, to, amount);
      hide Receive;
    case OpenWsol(to, rent) =>
      ReceiveAdds(s.lamports, to, rent);
      hide Receive;
  }

  predicate Quiet(ix: Instruction) {
    ix.InitializeLaunch? || ix.ClaimProtocolFees? || ix.DepositTokens? || ix.AdvanceClock?
  }

  /** These touch no account that fees come from, and no fee vault but the one that is claimed. */
  lemma QuietLeavesFees(s: State, ix: Instruction)
    requires Quiet(ix) && Attempt(s, ix).Ok?
    ensures var t := Attempt(s, ix).value;
      && t.cfg == s.cfg && t.wsol == s.wsol
      && forall a: Address :: !a.Launch? && !a.Wallet? && (a.FeeVault? ==> !ix.ClaimProtocolFees?) ==>
           Balance(t.lamports, a) == Balance(s.lamports, a)
  {
    hide Step, TopUp, Move;
    match ix
    case InitializeLaunch(mint, payer, _) =>
      TopUpReachesFloor(s.lamports, Wallet(payer), Launch(mint), s.cfg.launchFloor);
    case ClaimProtocolFees(mint, authority) =>
      MoveConserves(s.lamports, FeeVault(mint), Wallet(authority), Claimable(s, mint));
    case _ =>
  }

  lemma OutsideIsAccounted(s: State, ix: Instruction)
    requires Attempt(s, ix).Ok?
    requires ix.Deposit? || ix.DepositWsol? || ix.OpenWsol? || ix.DepositTokens? || ix.AdvanceClock?
    ensures Accounted(s, Attempt(s, ix).value, ix)
  {
    if ix.Deposit? || ix.DepositWsol? || ix.OpenWsol? {
      InflowReceived(s, ix);
      hide Attempt, Inflow, TotalInflow;
    }
  }

  lemma CollectionIsAccounted(s: State, ix: Instruction)
    requires ix.CollectWsol? && Attempt(s, ix).Ok?
    ensures Accounted(s, Attempt(s, ix).value, ix)
  {
    CollectEffect(s, ix.mint, ix.collected);
  }

  lemma CreationIsAccounted(s: State, ix: Instruction)
    requires ix.InitializeLaunch? && Attempt(s, ix).Ok?
    ensures Accounted(s, Attempt(s, ix).value, ix)
    ensures s.cfg.launchFloor <= Base(Attempt(s, ix).value, ix.mint)
  {
    hide TopUp;
    TopUpReachesFloor(s.lamports, Wallet(ix.payer), Launch(ix.mint), s.cfg.launchFloor);
  }

  /** Every successful transaction is accounted for. */
  lemma {:induction false} TransactionIsAccounted(s: State, ix: Instruction)
    requires Attempt(s, ix).Ok?
    ensures Accounted(s, Attempt(s, ix).value, ix)
  {
    hide Step, PumpClaim, PumpSwapClaim, Accounted, SharedOut;
    match ix
    case StakeTokens(mint, owner, amount, lockDays, funds) =>
      StakingIsAccounted(s, mint, Stake(owner, amount, lockDays, funds, CleanVaults(s, mint)), owner, ix);
    case IncreaseTokens(mint, owner, amount, lockDays, funds) =>
      StakingIsAccounted(s, mint, Increase(owner, amount, lockDays, funds, CleanVaults(s, mint)), owner, ix);
    case ClaimRewards(mint, owner) => StakingIsAccounted(s, mint, Claim(owner), owner, ix);
    case UnstakeTokens(mint, owner) => StakingIsAccounted(s, mint, Unstake(owner), owner, ix);
    case ClaimProtocolFees(mint, authority) => ProtocolClaimIsAccounted(s, ix);
    case CollectWsol(_, _) => CollectionIsAccounted(s, ix);
    case InitializeLaunch(_, _, _) => CreationIsAccounted(s, ix);
    case ClaimPumpFees(mint, payer, _, _) =>
      ClaimNeedsLaunches(s, ix);
      FeeClaimShares(s, ix);
      FeeClaimIsAccounted(s, Attempt(s, ix).value, mint, payer, ClaimedAmount(s, ix), ix);
    case ClaimPumpSwapFees(mint, payer, _, _) =>
      ClaimNeedsLaunches(s, ix);
      FeeClaimShares(s, ix);
      FeeClaimIsAccounted(s, Attempt(s, ix).value, mint, payer, ClaimedAmount(s, ix), ix);
    case _ => OutsideIsAccounted(s, ix);
  }

  lemma ProtocolClaimIsAccounted(s: State, ix: Instruction)
    requires ix.ClaimProtocolFees? && Attempt(s, ix).Ok?
    ensures Accounted(s, Attempt(s, ix).value, ix)
  {
    MoveConserves(s.lamports, FeeVault(ix.mint), Wallet(ix.authority), Claimable(s, ix.mint));
  }

  /** The inflow of the successful transactions of a run. */
  function RunInflow(s: State, ixs: seq<Instruction>): nat
    decreases |ixs|
  {
    if ixs == [] then 0
    else
      var front, last := ixs[..|ixs| - 1], ixs[|ixs| - 1];
      RunInflow(s, front) + if Attempt(ExecuteAll(s, front), last).Ok? then TotalInflow(last) else 0
  }

  function RunInflowTo(s: State, ixs: seq<Instruction>, a: Address): nat
    decreases |ixs|
  {
    if ixs == [] then 0
    else
      var front, last := ixs[..|ixs| - 1], ixs[|ixs| - 1];
      RunInflowTo(s, front, a) + if Attempt(ExecuteAll(s, front), last).Ok? then Inflow(last, a) else 0
  }

  /** The rent paid into launch `m` by a run: at its creation, if the run has it. */
  function RunRent(s: State, ixs: seq<Instruction>, m: Pubkey): nat
    decreases |ixs|
  {
    if ixs == [] then 0
    else
      var front, last := ixs[..|ixs| - 1], ixs[|ixs| - 1];
      RunRent(s, front, m) + if Attempt(ExecuteAll(s, front), last).Ok? then RentPaid(ExecuteAll(s, front), last, m) else 0
  }

  /**
   * Conservation and backing over every run: the lamports of all accounts together change only
   * by what outsiders bring in, and what a launch holds beyond its reserve changes only by what
   * outsiders send to that launch and by the rent of its creation. The launch may be the main
   * one, the claimed one, or both.
   */
  lemma {:induction false} EveryRunIsAccounted(s: State, ixs: seq<Instruction>)
    ensures var t := ExecuteAll(s, ixs);
      && Sum(t.lamports) == Sum(s.lamports) + RunInflow(s, ixs)
      && forall m: Pubkey :: Base(t, m) == Base(s, m) + RunInflowTo(s, ixs, Launch(m)) + RunRent(s, ixs, m)
    decreases |ixs|
  {
    hide Attempt, Base, Inflow, TotalInflow, RentPaid;
    if ixs != [] {
      var front, last := ixs[..|ixs| - 1], ixs[|ixs| - 1];
      EveryRunIsAccounted(s, front);
      var mid := ExecuteAll(s, front);
      if Attempt(mid, last).Ok? {
        TransactionIsAccounted(mid, last);
      }
    }
  }

  // ---- Which launches there are ----

  /** Only its creation brings a launch into being, and nothing removes one or changes the floors. */
  lemma LaunchesAfter(s: State, ix: Instruction)
    ensures Execute(s, ix).cfg == s.cfg
    ensures Execute(s, ix).pools.Keys
         == s.pools.Keys + if ix.InitializeLaunch? && Attempt(s, ix).Ok? then {ix.mint} else {}
  {
    hide Step, PumpClaim, PumpSwapClaim, Move, MoveBy, TopUp;
    if IsFeeClaim(ix) && Attempt(s, ix).Ok? {
      hide Attempt, ShareOf, PoolTookShare;
      FeeClaimShares(s, ix);
    }
  }

  /**
   * In a program that started without launches, every launch always holds its whole reserve on
   * top of its rent.
   */
  lemma {:induction false} ReserveIsHeld(s: State, ixs: seq<Instruction>, m: Pubkey)
    requires s.pools == map[]
    ensures var t := ExecuteAll(s, ixs);
      && t.cfg == s.cfg
      && (m in t.pools ==> Reserve(t, m) + s.cfg.launchFloor <= Balance(t.lamports, Launch(m)))
    decreases |ixs|
  {
    hide Execute, Reserve;
    if ixs != [] {
      ReserveIsHeld(s, ixs[..|ixs| - 1], m);
      LaunchesAfter(ExecuteAll(s, ixs[..|ixs| - 1]), ixs[|ixs| - 1]);
      BackedAlong(ExecuteAll(s, ixs[..|ixs| - 1]), ixs[|ixs| - 1], m);
    }
  }

  lemma BackedAlong(s: State, ix: Instruction, m: Pubkey)
    requires m in s.pools ==> Reserve(s, m) + s.cfg.launchFloor <= Balance(s.lamports, Launch(m))
    ensures var t := Execute(s, ix);
      m in t.pools ==> Reserve(t, m) + s.cfg.launchFloor <= Balance(t.lamports, Launch(m))
  {
    LaunchesAfter(s, ix);
    hide Attempt;
    if Attempt(s, ix).Ok? {
      TransactionIsAccounted(s, ix);
      if ix.InitializeLaunch? && ix.mint == m {
        CreationIsAccounted(s, ix);
      }
    }
  }
}
