/** The SOL protocol fees of each launch: everything charged is either withdrawn or still there. */
module FeeLedger {
  import opened Types
  import opened Pool
  import opened Lamports
  import opened SolProgram
  import opened Routing
  import opened FeeClaims
  import opened SolRuns

  function Excess(held: nat, floor: nat): nat {
    if held <= floor then 0 else held - floor
  }

  /** The protocol fee a successful transaction charges on launch `m`. */
  function Charged(s: State, ix: Instruction, m: Pubkey): nat {
    var amount := ClaimedAmount(s, ix);
    if IsFeeClaim(ix) && ix.mint == m && 0 <= amount <= U64_MAX then FeeOf(amount) else 0
  }

  function Withdrawn(s: State, ix: Instruction, m: Pubkey): nat {
    if ix.ClaimProtocolFees? && ix.mint == m then Claimable(s, m) else 0
  }

  /** What an outside deposit adds to the part of the vault that can be claimed. */
  function Donated(s: State, ix: Instruction, m: Pubkey): nat {
    var held := Balance(s.lamports, FeeVault(m));
    Excess(held + Inflow(ix, FeeVault(m)), s.cfg.rentFloor) - Excess(held, s.cfg.rentFloor)
  }

  /** One transaction of the ledger of launch `m`. */
  ghost predicate Ledgered(s: State, t: State, ix: Instruction, m: Pubkey) {
    t.cfg == s.cfg
    && Claimable(t, m) + Withdrawn(s, ix, m) == Claimable(s, m) + Charged(s, ix, m) + Donated(s, ix, m)
  }

  lemma StakingIsLedgered(s: State, mint: Pubkey, op: Op, owner: Pubkey, ix: Instruction, m: Pubkey)
    requires StakingStep(s, mint, op, owner).Ok?
    requires !IsFeeClaim(ix) && !ix.ClaimProtocolFees? && Inflow(ix, FeeVault(m)) == 0
    ensures Ledgered(s, StakingStep(s, mint, op, owner).value, ix, m)
  {
    hide Step;
    MoveConserves(s.lamports, Launch(mint), Wallet(owner), Step(s.pools[mint], op, s.clock).value.paid);
  }

  /** Through all three states the vault can be in: absent, below its rent floor, above it. */
  lemma FeeClaimIsLedgered(s: State, ix: Instruction, m: Pubkey)
    requires IsFeeClaim(ix) && Attempt(s, ix).Ok?
    ensures Ledgered(s, Attempt(s, ix).value, ix, m)
  {
    hide Attempt, PoolsTookShares, ShareOf;
    FeeClaimShares(s, ix);
    var amount := ClaimedAmount(s, ix);
    hide ClaimedAmount, FeeOf;
    var t := Attempt(s, ix).value;
    if m != ix.mint {
      assert !Involved(s.cfg, ix.mint, ix.payer, FeeVault(m));
      assert Balance(t.lamports, FeeVault(m)) == Balance(s.lamports, FeeVault(m));
    }
  }

  lemma OutsideIsLedgered(s: State, ix: Instruction, m: Pubkey)
    requires Attempt(s, ix).Ok?
    requires ix.Deposit? || ix.DepositWsol? || ix.OpenWsol? || ix.CollectWsol? || (Quiet(ix) && !ix.ClaimProtocolFees?)
    ensures Ledgered(s, Attempt(s, ix).value, ix, m)
  {
    if ix.CollectWsol? {
      CollectEffect(s, ix.mint, ix.collected);
      hide Collect;
    } else if Quiet(ix) {
      QuietLeavesFees(s, ix);
      hide Attempt;
    } else {
      InflowReceived(s, ix);
      hide Attempt, Inflow, TotalInflow;
    }
  }

  lemma ProtocolClaimIsLedgered(s: State, ix: Instruction, m: Pubkey)
    requires ix.ClaimProtocolFees? && Attempt(s, ix).Ok?
    ensures Ledgered(s, Attempt(s, ix).value, ix, m)
    ensures var t := Attempt(s, ix).value;
      && Claimable(t, ix.mint) == 0
      && Balance(t.lamports, Wallet(ix.authority)) == Balance(s.lamports, Wallet(ix.authority)) + Claimable(s, ix.mint)
  {
    MoveConserves(s.lamports, FeeVault(ix.mint), Wallet(ix.authority), Claimable(s, ix.mint));
  }

  lemma {:induction false} TransactionIsLedgered(s: State, ix: Instruction, m: Pubkey)
    requires Attempt(s, ix).Ok?
    ensures Ledgered(s, Attempt(s, ix).value, ix, m)
  {
    hide Step, PumpClaim, PumpSwapClaim, Ledgered;
    match ix
    case StakeTokens(mint, owner, amount, lockDays, funds) =>
      StakingIsLedgered(s, mint, Stake(owner, amount, lockDays, funds, CleanVaults(s, mint)), owner, ix, m);
    case IncreaseTokens(mint, owner, amount, lockDays, funds) =>
      StakingIsLedgered(s, mint, Increase(owner, amount, lockDays, funds, CleanVaults(s, mint)), owner, ix, m);
    case ClaimRewards(mint, owner) => StakingIsLedgered(s, mint, Claim(owner), owner, ix, m);
    case UnstakeTokens(mint, owner) => StakingIsLedgered(s, mint, Unstake(owner), owner, ix, m);
    case ClaimProtocolFees(_, _) => ProtocolClaimIsLedgered(s, ix, m);
    case ClaimPumpFees(_, _, _, _) => FeeClaimIsLedgered(s, ix, m);
    case ClaimPumpSwapFees(_, _, _, _) => FeeClaimIsLedgered(s, ix, m);
    case _ => OutsideIsLedgered(s, ix, m);
  }

  /** The totals of a run for launch `m`. */
  datatype FeeTotals = FeeTotals(charged: nat, withdrawn: nat, donated: nat)

  function Totals(s: State, ixs: seq<Instruction>, m: Pubkey): FeeTotals
    decreases |ixs|
  {
    if ixs == [] then FeeTotals(0, 0, 0)
    else
      var front, last := ixs[..|ixs| - 1], ixs[|ixs| - 1];
      var before := Totals(s, front, m);
      var t := ExecuteAll(s, front);
      if Attempt(t, last).Ok? then
        FeeTotals(before.charged + Charged(t, last, m), before.withdrawn + Withdrawn(t, last, m),
                  before.donated + Donated(t, last, m))
      else
        before
  }

  lemma {:induction false} RunIsLedgered(s: State, ixs: seq<Instruction>, m: Pubkey)
    ensures var t := ExecuteAll(s, ixs);
      var totals := Totals(s, ixs, m);
      && t.cfg == s.cfg
      && Claimable(t, m) + totals.withdrawn == Claimable(s, m) + totals.charged + totals.donated
    decreases |ixs|
  {
    hide Attempt, Claimable, Charged, Withdrawn, Donated;
    if ixs != [] {
      var front, last := ixs[..|ixs| - 1], ixs[|ixs| - 1];
      RunIsLedgered(s, front, m);
      if Attempt(ExecuteAll(s, front), last).Ok? {
        TransactionIsLedgered(ExecuteAll(s, front), last, m);
      }
    }
  }

  predicate NoInflowTo(ixs: seq<Instruction>, a: Address) {
    forall i :: 0 <= i < |ixs| ==> Inflow(ixs[i], a) == 0
  }

  lemma {:induction false} NothingDonated(s: State, ixs: seq<Instruction>, m: Pubkey)
    requires NoInflowTo(ixs, FeeVault(m))
    ensures Totals(s, ixs, m).donated == 0
    decreases |ixs|
  {
    hide Attempt, Charged, Withdrawn;
    if ixs != [] {
      NothingDonated(s, ixs[..|ixs| - 1], m);
    }
  }

  /**
   * Without outside deposits, a fee vault that started at or below its rent floor always has
   * withdrawn plus claimable equal to all the fees ever charged.
   */
  lemma {:induction false} FeesAreWithdrawnOrClaimable(s: State, ixs: seq<Instruction>, m: Pubkey)
    requires Balance(s.lamports, FeeVault(m)) <= s.cfg.rentFloor && NoInflowTo(ixs, FeeVault(m))
    ensures Totals(s, ixs, m).withdrawn + Claimable(ExecuteAll(s, ixs), m) == Totals(s, ixs, m).charged
  {
    RunIsLedgered(s, ixs, m);
    NothingDonated(s, ixs, m);
  }
}
