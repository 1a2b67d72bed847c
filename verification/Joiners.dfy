/**
 * What fee claims distribute to the stakers of a direct-route launch, against what accrued for it
 * since weight was last added to its active pool.
 *
 * A claim distributes more than it collects from the creator vaults: it also sweeps what had
 * already reached the fee owner and its wrapped-SOL account. The check on joining weight looks at
 * the vaults alone, so what is waiting in those two accounts decides whether joiners share in
 * older fees.
 */
module Joiners {
  import opened Types
  import opened Pool
  import opened Lamports
  import opened SolProgram
  import opened Routing
  import opened FeeClaims
  import opened SolRuns
  import opened FeeLedger
  import opened DirectRoute

  /** Collected from the vaults, or sent there directly, but not yet claimed for the stakers of `m`. */
  function Waiting(s: State, m: Pubkey): nat {
    Excess(Balance(s.lamports, FeeOwner(m)), s.cfg.rentFloor) + Balance(s.lamports, FeeOwnerWsol(m))
  }

  /** Everything that claims on `m` could distribute without anything more arriving. */
  function Stock(s: State, m: Pubkey): nat {
    Excess(Balance(s.lamports, CreatorVault(m)), s.cfg.creatorFloor) + WsolHeld(s, CoinCreatorAta(m)) + Waiting(s, m)
  }

  /** How much an inflow adds to what an account holds above its floor. */
  function Rise(held: nat, inflow: nat, floor: nat): nat {
    Excess(held + inflow, floor) - Excess(held, floor)
  }

  /** What a transaction of the outside world brings to the stock of `m`. */
  function Arrival(s: State, ix: Instruction, m: Pubkey): nat {
    Rise(Balance(s.lamports, CreatorVault(m)), Inflow(ix, CreatorVault(m)), s.cfg.creatorFloor)
    + (if ix.DepositWsol? && ix.to == CoinCreatorAta(m) then ix.amount else 0)
    + Rise(Balance(s.lamports, FeeOwner(m)), Inflow(ix, FeeOwner(m)), s.cfg.rentFloor)
    + Inflow(ix, FeeOwnerWsol(m))
  }

  /** What a transaction distributes for `m`: the whole amount of a claim on it. */
  function Given(s: State, ix: Instruction, m: Pubkey): int {
    if IsFeeClaim(ix) && ix.mint == m then ClaimedAmount(s, ix) else 0
  }

  // ---- The stock is conserved ----

  /** Nothing but an arrival adds to the stock, and nothing but a distribution takes from it. */
  ghost predicate StockBalances(s: State, t: State, ix: Instruction, m: Pubkey) {
    t.cfg == s.cfg && Stock(t, m) + Given(s, ix, m) == Stock(s, m) + Arrival(s, ix, m)
  }

  lemma NoInflowNoArrival(s: State, ix: Instruction, m: Pubkey)
    requires !ix.Deposit? && !ix.DepositWsol? && !ix.OpenWsol?
    ensures Arrival(s, ix, m) == 0
  {
  }

  lemma StakingKeepsStock(s: State, mint: Pubkey, op: Op, owner: Pubkey, m: Pubkey)
    requires StakingStep(s, mint, op, owner).Ok?
    ensures var t := StakingStep(s, mint, op, owner).value; t.cfg == s.cfg && Stock(t, m) == Stock(s, m)
  {
    hide Step;
    MoveConserves(s.lamports, Launch(mint), Wallet(owner), Step(s.pools[mint], op, s.clock).value.paid);
  }

  lemma StakingBalances(s: State, ix: Instruction, m: Pubkey)
    requires Attempt(s, ix).Ok? && (ix.StakeTokens? || ix.IncreaseTokens? || ix.ClaimRewards? || ix.UnstakeTokens?)
    ensures StockBalances(s, Attempt(s, ix).value, ix, m)
    ensures Stock(Attempt(s, ix).value, m) == Stock(s, m)
  {
    NoInflowNoArrival(s, ix, m);
    var clean := CleanVaults(s, ix.mint);
    hide StakingStep, Stock, Arrival;
    match ix
    case StakeTokens(mint, owner, amount, lockDays, funds) =>
      StakingKeepsStock(s, mint, Stake(owner, amount, lockDays, funds, clean), owner, m);
    case IncreaseTokens(mint, owner, amount, lockDays, funds) =>
      StakingKeepsStock(s, mint, Increase(owner, amount, lockDays, funds, clean), owner, m);
    case ClaimRewards(mint, owner) => StakingKeepsStock(s, mint, Claim(owner), owner, m);
    case UnstakeTokens(mint, owner) => StakingKeepsStock(s, mint, Unstake(owner), owner, m);
  }

  lemma OtherClaimKeepsStock(s: State, t: State, mint: Pubkey, payer: Pubkey, amount: u64, m: Pubkey)
    requires SharedOut(s, t, mint, payer, amount) && m != mint
    requires WsolHeld(t, CoinCreatorAta(m)) == WsolHeld(s, CoinCreatorAta(m))
    ensures t.cfg == s.cfg && Stock(t, m) == Stock(s, m)
  {
    assert !Involved(s.cfg, mint, payer, CreatorVault(m)) && !Involved(s.cfg, mint, payer, FeeOwner(m));
    assert !Involved(s.cfg, mint, payer, FeeOwnerWsol(m));
    hide PoolsTookShares, ShareOf, FeeOf;
  }

  /** What the four places that make up the stock of the claimed launch hold after a Pump.fun claim. */
  lemma PumpClaimLeaves(s: State, ix: Instruction)
    requires ix.ClaimPumpFees? && Attempt(s, ix).Ok?
    ensures 0 < ClaimedAmount(s, ix) <= U64_MAX
    ensures var t := Attempt(s, ix).value; var m := ix.mint;
      && SharedOut(s, t, m, ix.payer, ClaimedAmount(s, ix)) && t.cfg == s.cfg && t.wsol == s.wsol
      && Balance(t.lamports, CreatorVault(m)) == Balance(s.lamports, CreatorVault(m)) - ix.collected
      && (ix.collected > 0 ==> s.cfg.creatorFloor <= Balance(t.lamports, CreatorVault(m)))
      && Balance(t.lamports, FeeOwner(m)) == s.cfg.rentFloor
      && Balance(t.lamports, FeeOwnerWsol(m)) == Balance(s.lamports, FeeOwnerWsol(m))
      && ClaimedAmount(s, ix) == Excess(Balance(s.lamports, FeeOwner(m)), s.cfg.rentFloor) + ix.collected
  {
    PumpClaimShares(s, ix.mint, ix.payer, ix.collected, ix.remaining);
    hide PumpClaim, PoolsTookShares, ShareOf, FeeOf;
  }

  lemma PumpClaimBalances(s: State, ix: Instruction, m: Pubkey)
    requires ix.ClaimPumpFees? && Attempt(s, ix).Ok?
    ensures StockBalances(s, Attempt(s, ix).value, ix, m)
  {
    PumpClaimLeaves(s, ix);
    NoInflowNoArrival(s, ix, m);
    hide Attempt, SharedOut, ClaimedAmount, Arrival;
    if m != ix.mint {
      OtherClaimKeepsStock(s, Attempt(s, ix).value, ix.mint, ix.payer, ClaimedAmount(s, ix), m);
    }
  }

  /** The same after a PumpSwap claim, and what it leaves of any other launch's wrapped SOL. */
  lemma PumpSwapClaimLeaves(s: State, ix: Instruction, m: Pubkey)
    requires ix.ClaimPumpSwapFees? && Attempt(s, ix).Ok?
    ensures 0 < ClaimedAmount(s, ix) <= U64_MAX
    ensures var t := Attempt(s, ix).value;
      && SharedOut(s, t, ix.mint, ix.payer, ClaimedAmount(s, ix)) && t.cfg == s.cfg
      && Balance(t.lamports, CreatorVault(ix.mint)) == Balance(s.lamports, CreatorVault(ix.mint))
      && Balance(t.lamports, FeeOwner(ix.mint)) == Balance(s.lamports, FeeOwner(ix.mint))
      && Balance(t.lamports, FeeOwnerWsol(ix.mint)) == 0
      && ClaimedAmount(s, ix) == Balance(s.lamports, FeeOwnerWsol(ix.mint)) + ix.collected
    ensures WsolHeld(Attempt(s, ix).value, CoinCreatorAta(m))
         == WsolHeld(s, CoinCreatorAta(m)) - (if m == ix.mint then ix.collected else 0)
  {
    hide PumpSwapClaim, PoolsTookShares, ShareOf, FeeOf, SharedOut, Balance;
    PumpSwapClaimShares(s, ix.mint, ix.payer, ix.collected, ix.remaining);
    assert Attempt(s, ix).value.cfg == s.cfg by { SharedWorld(s, Attempt(s, ix).value, ix.mint, ix.payer, ClaimedAmount(s, ix)); }
  }

  lemma SharedWorld(s: State, t: State, mint: Pubkey, payer: Pubkey, amount: u64)
    requires SharedOut(s, t, mint, payer, amount)
    ensures t.cfg == s.cfg
  {
  }

  lemma PumpSwapClaimBalances(s: State, ix: Instruction, m: Pubkey)
    requires ix.ClaimPumpSwapFees? && Attempt(s, ix).Ok?
    ensures StockBalances(s, Attempt(s, ix).value, ix, m)
  {
    PumpSwapClaimLeaves(s, ix, m);
    NoInflowNoArrival(s, ix, m);
    hide Attempt, SharedOut, ClaimedAmount, Arrival, WsolHeld;
    if m != ix.mint {
      OtherClaimKeepsStock(s, Attempt(s, ix).value, ix.mint, ix.payer, ClaimedAmount(s, ix), m);
    }
  }

  /** A collection outside a claim only moves stock from the vault to where it waits. */
  lemma CollectionBalances(s: State, ix: Instruction, m: Pubkey)
    requires ix.CollectWsol? && Attempt(s, ix).Ok?
    ensures StockBalances(s, Attempt(s, ix).value, ix, m)
  {
    CollectEffect(s, ix.mint, ix.collected);
    NoInflowNoArrival(s, ix, m);
    hide Arrival, Collect;
  }

  lemma InflowBalances(s: State, ix: Instruction, m: Pubkey)
    requires (ix.Deposit? || ix.DepositWsol? || ix.OpenWsol?) && Attempt(s, ix).Ok?
    ensures StockBalances(s, Attempt(s, ix).value, ix, m)
  {
    InflowReceived(s, ix);
    hide Attempt, Excess, Inflow, TotalInflow;
  }

  lemma QuietBalances(s: State, ix: Instruction, m: Pubkey)
    requires Quiet(ix) && Attempt(s, ix).Ok?
    ensures StockBalances(s, Attempt(s, ix).value, ix, m)
  {
    NoInflowNoArrival(s, ix, m);
    QuietLeavesFees(s, ix);
    hide Attempt, Arrival, Excess;
  }

  lemma TransactionBalances(s: State, ix: Instruction, m: Pubkey)
    requires Attempt(s, ix).Ok?
    ensures StockBalances(s, Attempt(s, ix).value, ix, m)
  {
    hide Attempt, StockBalances;
    if ix.StakeTokens? || ix.IncreaseTokens? || ix.ClaimRewards? || ix.UnstakeTokens? {
      StakingBalances(s, ix, m);
    } else if ix.ClaimPumpFees? {
      PumpClaimBalances(s, ix, m);
    } else if ix.ClaimPumpSwapFees? {
      PumpSwapClaimBalances(s, ix, m);
    } else if ix.CollectWsol? {
      CollectionBalances(s, ix, m);
    } else if ix.Deposit? || ix.DepositWsol? || ix.OpenWsol? {
      InflowBalances(s, ix, m);
    } else {
      QuietBalances(s, ix, m);
    }
  }

  // ---- Between two joins ----

  /**
   * One claim on the launch: what it distributed, what was waiting when weight last joined, what
   * had arrived since then and not been distributed before, and whether weight had joined at all.
   */
  datatype Distribution = Distribution(amount: int, waited: nat, recent: int, afterJoin: bool)

  /** What has arrived and been given since weight last joined the active pool, and every claim so far. */
  datatype Tally = Tally(waited: nat, arrived: nat, given: int, joined: bool, claims: seq<Distribution>)

  /** Until weight joins, everything in stock at the beginning counts as waiting. */
  function Opening(s: State, m: Pubkey): Tally {
    Tally(Stock(s, m), 0, 0, false, [])
  }

  function Next(s: State, ix: Instruction, r: Tally, m: Pubkey): Tally {
    if Attempt(s, ix).Err? then r
    else if Joins(s, ix, m) then Tally(Waiting(s, m), 0, 0, true, r.claims)
    else if IsFeeClaim(ix) && ix.mint == m then
      r.(given := r.given + Given(s, ix, m),
      claims := r.claims + [Distribution(Given(s, ix, m), r.waited, r.arrived - r.given, r.joined)])
    else r.(arrived := r.arrived + Arrival(s, ix, m))
  }

  function Tallied(s: State, ixs: seq<Instruction>, m: Pubkey): Tally
    decreases |ixs|
  {
    if ixs == [] then Opening(s, m)
    else
      var front, last := ixs[..|ixs| - 1], ixs[|ixs| - 1];
      Next(ExecuteAll(s, front), last, Tallied(s, front, m), m)
  }

  ghost predicate ClaimsWithinTally(claims: seq<Distribution>) {
    forall i :: 0 <= i < |claims| ==> claims[i].amount <= claims[i].waited + claims[i].recent
  }

  /** The stock is what waited at the last join, with what arrived, less what was given since. */
  ghost predicate Balanced(s: State, r: Tally, m: Pubkey) {
    Stock(s, m) + r.given == r.waited + r.arrived && ClaimsWithinTally(r.claims)
  }

  lemma CleanStockWaits(s: State, m: Pubkey)
    requires CleanVaults(s, m)
    ensures Stock(s, m) == Waiting(s, m)
  {
  }

  lemma JoinKeepsBalance(s: State, ix: Instruction, r: Tally, m: Pubkey)
    requires Balanced(s, r, m) && Attempt(s, ix).Ok? && Joins(s, ix, m)
    ensures Balanced(Execute(s, ix), Next(s, ix, r, m), m)
  {
    JoinNeedsCleanVaults(s, ix, m);
    CleanStockWaits(s, m);
    StakingBalances(s, ix, m);
    hide Attempt, Stock, Waiting;
  }

  /** What a claim, or any other transaction, adds to the tally. */
  lemma NextTally(s: State, ix: Instruction, r: Tally, m: Pubkey)
    requires Attempt(s, ix).Ok? && !Joins(s, ix, m)
    ensures var claim := IsFeeClaim(ix) && ix.mint == m;
      Next(s, ix, r, m) == if claim then
          r.(given := r.given + Given(s, ix, m),
             claims := r.claims + [Distribution(Given(s, ix, m), r.waited, r.arrived - r.given, r.joined)])
        else r.(arrived := r.arrived + Arrival(s, ix, m))
    ensures !(IsFeeClaim(ix) && ix.mint == m) ==> Given(s, ix, m) == 0
  {
    hide Attempt, Arrival, ClaimedAmount, Joins;
  }

  lemma TransactionKeepsBalance(s: State, ix: Instruction, r: Tally, m: Pubkey)
    requires Balanced(s, r, m)
    ensures Balanced(Execute(s, ix), Next(s, ix, r, m), m)
  {
    hide Attempt, Stock, Arrival, Given, Joins;
    if Attempt(s, ix).Ok? {
      if Joins(s, ix, m) {
        JoinKeepsBalance(s, ix, r, m);
      } else {
        TransactionBalances(s, ix, m);
        NextTally(s, ix, r, m);
        if IsFeeClaim(ix) {
          NoInflowNoArrival(s, ix, m);
        }
        hide Next;
      }
    }
  }

  /**
   * In every run of the program, the stock of each launch is what waited when weight last joined
   * its active pool, with everything that arrived since, less everything claims distributed since;
   * so no claim distributes more than what had waited and what was fresh.
   */
  lemma {:induction false} EveryRunIsBalanced(s: State, ixs: seq<Instruction>, m: Pubkey)
    ensures Balanced(ExecuteAll(s, ixs), Tallied(s, ixs, m), m)
    decreases |ixs|
  {
    if ixs != [] {
      hide Execute, Next, Balanced;
      EveryRunIsBalanced(s, ixs[..|ixs| - 1], m);
      TransactionKeepsBalance(ExecuteAll(s, ixs[..|ixs| - 1]), ixs[|ixs| - 1], Tallied(s, ixs[..|ixs| - 1], m), m);
    }
  }

  /**
   * At any moment: all that claims have distributed since weight last joined, and all they still
   * could, arrived since then, if and only if nothing was waiting when it joined.
   */
  lemma {:induction false} AllIsFreshExactly(s: State, ixs: seq<Instruction>, m: Pubkey)
    ensures var r := Tallied(s, ixs, m);
      r.given + Stock(ExecuteAll(s, ixs), m) <= r.arrived <==> r.waited == 0
  {
    EveryRunIsBalanced(s, ixs, m);
  }

  // ---- When joiners earn no older fees ----

  /** Nothing waits whenever weight joins the active pool. */
  predicate NothingWaitsAtJoins(s: State, ixs: seq<Instruction>, m: Pubkey)
    decreases |ixs|
  {
    ixs != [] ==>
      var front, last := ixs[..|ixs| - 1], ixs[|ixs| - 1];
      && NothingWaitsAtJoins(s, front, m)
      && (Attempt(ExecuteAll(s, front), last).Ok? && Joins(ExecuteAll(s, front), last, m)
          ==> Waiting(ExecuteAll(s, front), m) == 0)
  }

  ghost predicate NothingWaited(r: Tally) {
    && (r.joined ==> r.waited == 0)
    && forall i :: 0 <= i < |r.claims| && r.claims[i].afterJoin ==> r.claims[i].waited == 0
  }

  lemma {:induction false} NothingWaitedThen(s: State, ixs: seq<Instruction>, m: Pubkey)
    requires NothingWaitsAtJoins(s, ixs, m)
    ensures NothingWaited(Tallied(s, ixs, m))
    decreases |ixs|
  {
    hide Attempt, Stock, Waiting, Joins, Given, Arrival;
    if ixs != [] {
      NothingWaitedThen(s, ixs[..|ixs| - 1], m);
    }
  }

  /**
   * As long as weight joins only while nothing is waiting, every claim after a join distributes, in
   * all, no more than what arrived, and had not been distributed, since weight was last added;
   * whatever was in stock when the run began.
   */
  lemma {:induction false} JoinersEarnNoOlderFees(s: State, ixs: seq<Instruction>, m: Pubkey)
    requires NothingWaitsAtJoins(s, ixs, m)
    ensures var claims := Tallied(s, ixs, m).claims;
      forall i :: 0 <= i < |claims| && claims[i].afterJoin ==> claims[i].amount <= claims[i].recent
  {
    EveryRunIsBalanced(s, ixs, m);
    NothingWaitedThen(s, ixs, m);
    hide Tallied, ExecuteAll;
  }
}
