/** The two SOL fee claims, end to end: from the Pump vaults to the stakers' reserves. */
module FeeClaims {
  import opened Types
  import opened Sums
  import opened Rewards
  import opened Lamports
  import opened SolProgram
  import opened Routing

  /** The lamports a fee claim has to share out: everything above the floor, or the closed account's all. */
  function ClaimedAmount(s: State, ix: Instruction): int {
    match ix
    case ClaimPumpFees(mint, _, collected, _) =>
      var held := Balance(s.lamports, FeeOwner(mint));
      (if held < s.cfg.rentFloor then s.cfg.rentFloor else held) + collected - s.cfg.rentFloor
    case ClaimPumpSwapFees(mint, _, collected, _) => Balance(s.lamports, FeeOwnerWsol(mint)) + collected
    case _ => 0
  }

  predicate IsFeeClaim(ix: Instruction) {
    ix.ClaimPumpFees? || ix.ClaimPumpSwapFees?
  }

  /**
   * A claim of `amount` on `mint`: each launch's lamports and reserve both grow by its share,
   * the fee vault takes the fee, and no lamport is made or lost.
   */
  ghost predicate SharedOut(s: State, t: State, mint: Pubkey, payer: Pubkey, amount: u64) {
    && SplitAmounts(amount).Ok?
    && SameWorld(s, t)
    && PoolsTookShares(s, t, mint, amount)
    && Sum(t.lamports) == Sum(s.lamports)
    && (forall m: Pubkey :: Balance(t.lamports, Launch(m)) == Balance(s.lamports, Launch(m)) + ShareOf(s.cfg, mint, amount, m))
    && Balance(t.lamports, FeeVault(mint))
       == (if FeeOf(amount) > 0 && Balance(s.lamports, FeeVault(mint)) < s.cfg.rentFloor then s.cfg.rentFloor
           else Balance(s.lamports, FeeVault(mint))) + FeeOf(amount)
    && (forall a: Address :: !Involved(s.cfg, mint, payer, a) ==> Balance(t.lamports, a) == Balance(s.lamports, a))
  }

  /** After the sweep: only the launch, the payer and the accounts collected from have changed. */
  ghost predicate SweptUp(s: State, mid: State, mint: Pubkey, payer: Pubkey, amount: int) {
    && SameWorld(s, mid)
    && mid.pools == s.pools
    && Sum(mid.lamports) == Sum(s.lamports)
    && Balance(mid.lamports, Launch(mint)) == Balance(s.lamports, Launch(mint)) + amount
    && Balance(mid.lamports, FeeVault(mint)) == Balance(s.lamports, FeeVault(mint))
    && (forall a: Address :: a != Launch(mint) && (a.Launch? || !Involved(s.cfg, mint, payer, a)) ==>
          Balance(mid.lamports, a) == Balance(s.lamports, a))
  }

  /** Bringing the fee owner up to its floor and collecting into it. */
  lemma CollectedFrom(l: Balances, floor: u64, mint: Pubkey, payer: Pubkey, collected: u64)
    requires TopUp(l, Wallet(payer), FeeOwner(mint), floor).Ok?
    requires Move(TopUp(l, Wallet(payer), FeeOwner(mint), floor).value, CreatorVault(mint), FeeOwner(mint), collected).Ok?
    ensures var ready := TopUp(l, Wallet(payer), FeeOwner(mint), floor).value;
      var m := Move(ready, CreatorVault(mint), FeeOwner(mint), collected).value;
      && Balance(ready, CreatorVault(mint)) == Balance(l, CreatorVault(mint))
      && Sum(m) == Sum(l)
      && Balance(m, FeeOwner(mint)) == (if Balance(l, FeeOwner(mint)) < floor then floor else Balance(l, FeeOwner(mint))) + collected
      && Balance(m, CreatorVault(mint)) == Balance(l, CreatorVault(mint)) - collected
      && (forall a: Address :: a != FeeOwner(mint) && a != CreatorVault(mint) && a != Wallet(payer) ==>
            Balance(m, a) == Balance(l, a))
  {
    hide TopUp, Move;
    TopUpReachesFloor(l, Wallet(payer), FeeOwner(mint), floor);
    MoveConserves(TopUp(l, Wallet(payer), FeeOwner(mint), floor).value, CreatorVault(mint), FeeOwner(mint), collected);
  }

  lemma PumpSweepEffect(s: State, mint: Pubkey, payer: Pubkey, collected: u64)
    requires PumpSweep(s, mint, payer, collected).Ok?
    ensures var out := PumpSweep(s, mint, payer, collected).value;
      && out.amount == ClaimedAmount(s, ClaimPumpFees(mint, payer, collected, [])) > 0
      && SweptUp(s, out.state, mint, payer, out.amount)
      && out.state.wsol == s.wsol
      && Balance(out.state.lamports, FeeOwner(mint)) == s.cfg.rentFloor
      && Balance(out.state.lamports, CreatorVault(mint)) == Balance(s.lamports, CreatorVault(mint)) - collected
      && Balance(out.state.lamports, FeeOwnerWsol(mint)) == Balance(s.lamports, FeeOwnerWsol(mint))
      && (collected > 0 ==> s.cfg.creatorFloor <= Balance(out.state.lamports, CreatorVault(mint)))
  {
    hide TopUp, Move;
    var floor := s.cfg.rentFloor;
    CollectedFrom(s.lamports, floor, mint, payer, collected);
    var ready := TopUp(s.lamports, Wallet(payer), FeeOwner(mint), floor).value;
    var gathered := Move(ready, CreatorVault(mint), FeeOwner(mint), collected).value;
    MoveConserves(gathered, FeeOwner(mint), Launch(mint), Balance(gathered, FeeOwner(mint)) - floor);
  }

  /** A collection moves wrapped SOL, and its lamports, between the two token accounts and nothing else. */
  lemma CollectEffect(s: State, mint: Pubkey, collected: u64)
    requires Collect(s, mint, collected).Ok?
    ensures var source, target := CoinCreatorAta(mint), FeeOwnerWsol(mint);
      var t := Collect(s, mint, collected).value;
      && t == s.(lamports := t.lamports, wsol := t.wsol)
      && source in s.wsol && target in s.wsol && collected <= s.wsol[source]
      && t.wsol == s.wsol[source := s.wsol[source] - collected][target := s.wsol[target] + collected]
      && Sum(t.lamports) == Sum(s.lamports)
      && Balance(t.lamports, target) == Balance(s.lamports, target) + collected
      && (forall a: Address :: a != source && a != target ==> Balance(t.lamports, a) == Balance(s.lamports, a))
  {
    MoveConserves(s.lamports, CoinCreatorAta(mint), FeeOwnerWsol(mint), collected);
  }

  lemma PumpSwapSweepEffect(s: State, mint: Pubkey, payer: Pubkey, collected: u64)
    requires PumpSwapSweep(s, mint, collected).Ok?
    ensures var out := PumpSwapSweep(s, mint, collected).value;
      && out.amount == ClaimedAmount(s, ClaimPumpSwapFees(mint, payer, collected, [])) > 0
      && SweptUp(s, out.state, mint, payer, out.amount)
      && CoinCreatorAta(mint) in s.wsol && FeeOwnerWsol(mint) in s.wsol && collected <= s.wsol[CoinCreatorAta(mint)]
      && out.state.wsol == s.wsol[CoinCreatorAta(mint) := s.wsol[CoinCreatorAta(mint)] - collected] - {FeeOwnerWsol(mint)}
      && Balance(out.state.lamports, FeeOwnerWsol(mint)) == 0
      && Balance(out.state.lamports, CreatorVault(mint)) == Balance(s.lamports, CreatorVault(mint))
      && Balance(out.state.lamports, FeeOwner(mint)) == Balance(s.lamports, FeeOwner(mint))
  {
    hide Move;
    CollectEffect(s, mint, collected);
    var gathered := Collect(s, mint, collected).value;
    var amount := Balance(gathered.lamports, FeeOwnerWsol(mint));
    MoveConserves(gathered.lamports, FeeOwnerWsol(mint), Launch(mint), amount);
    assert gathered.wsol - {FeeOwnerWsol(mint)}
        == s.wsol[CoinCreatorAta(mint) := s.wsol[CoinCreatorAta(mint)] - collected] - {FeeOwnerWsol(mint)};
  }

  lemma RouteShares(s: State, mid: State, mint: Pubkey, payer: Pubkey, main: Option<Address>, amount: u64)
    requires SweptUp(s, mid, mint, payer, amount) && Route(mid, mint, payer, main, amount).Ok?
    ensures mid.cfg == s.cfg && SplitAmounts(amount).Ok?
    ensures var t := Route(mid, mint, payer, main, amount).value;
      && SharedOut(s, t, mint, payer, amount)
      && t.wsol == mid.wsol
      && (forall a: Address :: !a.Launch? && a != FeeVault(mint) && a != Wallet(payer) ==>
            Balance(t.lamports, a) == Balance(mid.lamports, a))
  {
    hide Route, ShareOf, FeeOf, SplitAmounts, Sum, PoolsTookShares, Balance;
    RoutePools(mid, mint, payer, main, amount);
    RouteLamports(mid, mint, payer, main, amount);
    RouteLaunches(mid, mint, payer, main, amount);
    SamePoolsSameShares(s, mid, Route(mid, mint, payer, main, amount).value, mint, amount);
  }

  /** Who took which share depends on the pools alone. */
  lemma SamePoolsSameShares(s: State, mid: State, t: State, mint: Pubkey, amount: u64)
    requires mid.pools == s.pools && mid.cfg == s.cfg && PoolsTookShares(mid, t, mint, amount)
    ensures PoolsTookShares(s, t, mint, amount)
  {
  }

  /** A successful Pump.fun claim shares out its amount and leaves the fee owner at exactly its floor. */
  lemma {:induction false} PumpClaimShares(s: State, mint: Pubkey, payer: Pubkey, collected: u64, remaining: seq<Address>)
    requires PumpClaim(s, mint, payer, collected, remaining).Ok?
    ensures var amount := ClaimedAmount(s, ClaimPumpFees(mint, payer, collected, remaining));
      var t := PumpClaim(s, mint, payer, collected, remaining).value;
      && 0 < amount <= U64_MAX
      && SharedOut(s, t, mint, payer, amount)
      && t.wsol == s.wsol
      && Balance(t.lamports, FeeOwner(mint)) == s.cfg.rentFloor
      && Balance(t.lamports, CreatorVault(mint)) == Balance(s.lamports, CreatorVault(mint)) - collected
      && Balance(t.lamports, FeeOwnerWsol(mint)) == Balance(s.lamports, FeeOwnerWsol(mint))
      && (collected > 0 ==> s.cfg.creatorFloor <= Balance(t.lamports, CreatorVault(mint)))
  {
    hide PumpSweep, Route, SharedOut, SweptUp;
    PumpSweepEffect(s, mint, payer, collected);
    var swept := PumpSweep(s, mint, payer, collected).value;
    RouteShares(s, swept.state, mint, payer, MainAccount(swept.state.cfg, mint, remaining).value, swept.amount);
  }

  /** A successful PumpSwap claim closes the wrapped-SOL account and shares out all its lamports. */
  lemma {:induction false} PumpSwapClaimShares(s: State, mint: Pubkey, payer: Pubkey, collected: u64, remaining: seq<Address>)
    requires PumpSwapClaim(s, mint, payer, collected, remaining).Ok?
    ensures var amount := ClaimedAmount(s, ClaimPumpSwapFees(mint, payer, collected, remaining));
      var t := PumpSwapClaim(s, mint, payer, collected, remaining).value;
      && 0 < amount <= U64_MAX
      && SharedOut(s, t, mint, payer, amount)
      && CoinCreatorAta(mint) in s.wsol && FeeOwnerWsol(mint) in s.wsol && collected <= s.wsol[CoinCreatorAta(mint)]
      && t.wsol == s.wsol[CoinCreatorAta(mint) := s.wsol[CoinCreatorAta(mint)] - collected] - {FeeOwnerWsol(mint)}
      && Balance(t.lamports, FeeOwnerWsol(mint)) == 0
      && Balance(t.lamports, CreatorVault(mint)) == Balance(s.lamports, CreatorVault(mint))
      && Balance(t.lamports, FeeOwner(mint)) == Balance(s.lamports, FeeOwner(mint))
  {
    hide PumpSwapSweep, Route, SharedOut, SweptUp;
    PumpSwapSweepEffect(s, mint, payer, collected);
    var swept := PumpSwapSweep(s, mint, collected).value;
    RouteShares(s, swept.state, mint, payer, MainAccount(swept.state.cfg, mint, remaining).value, swept.amount);
  }

  /** Either fee claim shares out exactly what it claimed. */
  lemma {:induction false} FeeClaimShares(s: State, ix: Instruction)
    requires IsFeeClaim(ix) && Attempt(s, ix).Ok?
    ensures 0 < ClaimedAmount(s, ix) <= U64_MAX
    ensures SharedOut(s, Attempt(s, ix).value, ix.mint, ix.payer, ClaimedAmount(s, ix))
  {
    match ix
    case ClaimPumpFees(mint, payer, collected, remaining) => PumpClaimShares(s, mint, payer, collected, remaining);
    case ClaimPumpSwapFees(mint, payer, collected, remaining) =>
      PumpSwapClaimShares(s, mint, payer, collected, remaining);
  }

  lemma RouteNeedsMain(s: State, mint: Pubkey, payer: Pubkey, main: Option<Address>, amount: u64)
    requires Route(s, mint, payer, main, amount).Ok? && mint != s.cfg.mainMint
    ensures ShareOf(s.cfg, mint, amount, s.cfg.mainMint) > 0 ==>
              main == Some(Launch(s.cfg.mainMint)) && s.cfg.mainMint in s.pools
  {
    hide TopUp, Move, ApplyTo;
  }
}
