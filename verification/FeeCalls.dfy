/** Exactly when the fee claims and the protocol claim succeed, in any state of the program. */
module FeeCalls {
  import opened Arithmetic
  import opened Types
  import opened Rewards
  import opened Pool
  import opened Lamports
  import opened SolProgram
  import opened Routing
  import opened FeeLedger

  /** A quarter of a claim, rounded down, is the fee; a twentieth of the rest is the main coin's. */
  function FeePart(amount: nat): nat {
    amount / 4
  }

  function MainPart(amount: nat): nat {
    (amount - FeePart(amount)) / 20
  }

  lemma PartsOfClaim(amount: u64)
    ensures SplitAmounts(amount).Ok? <==> 1 <= amount <= 7_378_697_629_483_820
    ensures SplitAmounts(amount).Ok? ==>
              SplitAmounts(amount).value == Split(FeePart(amount), MainPart(amount), amount - FeePart(amount) - MainPart(amount))
    ensures SplitAmounts(amount).Ok? ==> amount - FeePart(amount) - MainPart(amount) > 0
  {
  }

  /** A batch finds weight to credit, moves the accumulator, and both sums fit. */
  predicate BatchFits(l: LaunchConfig, amount: nat) {
    && 0 < l.totalWeightedStake <= amount * 1_000_000_000_000_000_000
    && l.accRewardPerWeight + amount * 1_000_000_000_000_000_000 / l.totalWeightedStake <= U128_MAX
    && l.rewardReserve + amount <= U64_MAX
  }

  lemma BatchFitsExactly(l: LaunchConfig, amount: u64)
    ensures ApplyRewards(l, amount).Ok? <==> BatchFits(l, amount)
  {
    if l.totalWeightedStake > 0 {
      DivBounds(amount * PRECISION, l.totalWeightedStake);
      if Increment(amount, l.totalWeightedStake) > 0 {
        MulMonotone(1, Increment(amount, l.totalWeightedStake), l.totalWeightedStake);
      }
    }
  }

  lemma ApplyToExactly(pools: map<Pubkey, Pool>, m: Pubkey, amount: u64)
    ensures ApplyTo(pools, m, amount).Ok? <==> m in pools && BatchFits(pools[m].launch, amount)
    ensures ApplyTo(pools, m, amount).Ok? ==>
              && ApplyTo(pools, m, amount).value.Keys == pools.Keys
              && forall n :: n in pools && n != m ==> ApplyTo(pools, m, amount).value[n] == pools[n]
  {
    if m in pools {
      BatchFitsExactly(pools[m].launch, amount);
      hide ApplyRewards, BatchFits;
    }
  }

  /** What a fee vault is short of its floor when there is a fee to take. */
  function VaultShort(s: State, mint: Pubkey, amount: nat): nat {
    if FeePart(amount) > 0 && Balance(s.lamports, FeeVault(mint)) < s.cfg.rentFloor then
      s.cfg.rentFloor - Balance(s.lamports, FeeVault(mint))
    else
      0
  }

  /**
   * A claim of `amount` can be shared out: the split is defined, the payer's `funds` bring the fee
   * vault to its floor, the fee fits there, and each launch with a part can take it. A launch other
   * than the main one needs an account for the main coin to be named, and the right one if that
   * coin gets anything.
   */
  predicate CanShare(s: State, mint: Pubkey, remaining: seq<Address>, amount: nat, funds: nat) {
    var fee, part := FeePart(amount), MainPart(amount);
    && 1 <= amount <= 7_378_697_629_483_820
    && mint in s.pools
    && VaultShort(s, mint, amount) <= funds
    && Balance(s.lamports, FeeVault(mint)) + VaultShort(s, mint, amount) + fee <= U64_MAX
    && (mint == s.cfg.mainMint ==> BatchFits(s.pools[mint].launch, amount - fee))
    && (mint != s.cfg.mainMint ==>
          && |remaining| >= 1
          && BatchFits(s.pools[mint].launch, amount - fee - part)
          && (part > 0 ==>
                && remaining[0] == Launch(s.cfg.mainMint)
                && s.cfg.mainMint in s.pools
                && BatchFits(s.pools[s.cfg.mainMint].launch, part)
                && Balance(s.lamports, Launch(s.cfg.mainMint)) + part <= U64_MAX))
  }

  // ---- Routing ----

  /** The balances once the fee, if any, has gone from the launch into a vault kept at its floor. */
  function Charged(s: State, mint: Pubkey, payer: Pubkey, fee: u64): Result<Balances> {
    var funded :- if fee > 0 then TopUp(s.lamports, Wallet(payer), FeeVault(mint), s.cfg.rentFloor) else Ok(s.lamports);
    Move(funded, Launch(mint), FeeVault(mint), fee)
  }

  lemma FeeGoesExactly(s: State, mint: Pubkey, payer: Pubkey, amount: u64)
    requires amount <= Balance(s.lamports, Launch(mint))
    ensures var charged := Charged(s, mint, payer, FeePart(amount));
      && (charged.Ok? <==>
            && VaultShort(s, mint, amount) <= Balance(s.lamports, Wallet(payer))
            && Balance(s.lamports, FeeVault(mint)) + VaultShort(s, mint, amount) + FeePart(amount) <= U64_MAX)
      && (charged.Ok? ==>
            && Balance(charged.value, Launch(mint)) == Balance(s.lamports, Launch(mint)) - FeePart(amount)
            && forall m: Pubkey :: m != mint ==> Balance(charged.value, Launch(m)) == Balance(s.lamports, Launch(m)))
  {
    var fee := FeePart(amount);
    if fee > 0 {
      TopUpSucceedsExactly(s.lamports, Wallet(payer), FeeVault(mint), s.cfg.rentFloor);
      if TopUp(s.lamports, Wallet(payer), FeeVault(mint), s.cfg.rentFloor).Ok? {
        TopUpReachesFloor(s.lamports, Wallet(payer), FeeVault(mint), s.cfg.rentFloor);
        var funded := TopUp(s.lamports, Wallet(payer), FeeVault(mint), s.cfg.rentFloor).value;
        MoveSucceedsExactly(funded, Launch(mint), FeeVault(mint), fee);
        if Move(funded, Launch(mint), FeeVault(mint), fee).Ok? {
          MoveConserves(funded, Launch(mint), FeeVault(mint), fee);
        }
      }
    }
    hide TopUp, Move;
  }

  lemma MainSharesExactly(s: State, mint: Pubkey, payer: Pubkey, remaining: seq<Address>, amount: u64)
    requires amount <= Balance(s.lamports, Launch(mint)) && mint in s.pools && mint == s.cfg.mainMint
    ensures RouteSwept(Swept(s, amount), mint, payer, remaining).Ok?
       <==> CanShare(s, mint, remaining, amount, Balance(s.lamports, Wallet(payer)))
  {
    PartsOfClaim(amount);
    if SplitAmounts(amount).Ok? {
      FeeGoesExactly(s, mint, payer, amount);
      hide SplitAmounts, FeePart, MainPart, BatchFits, TopUp, Move, ApplyTo, VaultShort;
      ApplyToExactly(s.pools, mint, amount - FeePart(amount));
    }
  }

  /** Both batches of a claim on another launch, one after the other. */
  lemma TwoBatches(pools: map<Pubkey, Pool>, mint: Pubkey, main: Pubkey, share: u64, part: u64)
    requires mint in pools && mint != main
    ensures ApplyTo(pools, mint, share).Ok? <==> BatchFits(pools[mint].launch, share)
    ensures ApplyTo(pools, mint, share).Ok? ==>
              var after := ApplyTo(pools, mint, share).value;
              && (main in after <==> main in pools)
              && (ApplyTo(after, main, part).Ok? <==> main in pools && BatchFits(pools[main].launch, part))
  {
    hide ApplyTo, BatchFits;
    ApplyToExactly(pools, mint, share);
    if ApplyTo(pools, mint, share).Ok? {
      ApplyToExactly(ApplyTo(pools, mint, share).value, main, part);
    }
  }

  /** The main coin's part can leave the launch whenever it fits where it goes. */
  lemma MainMoves(s: State, mint: Pubkey, payer: Pubkey, amount: u64)
    requires amount <= Balance(s.lamports, Launch(mint)) && mint != s.cfg.mainMint
    ensures var charged := Charged(s, mint, payer, FeePart(amount));
      charged.Ok? ==>
        (Move(charged.value, Launch(mint), Launch(s.cfg.mainMint), MainPart(amount)).Ok?
         <==> MainPart(amount) == 0 || Balance(s.lamports, Launch(s.cfg.mainMint)) + MainPart(amount) <= U64_MAX)
  {
    FeeGoesExactly(s, mint, payer, amount);
    var charged := Charged(s, mint, payer, FeePart(amount));
    if charged.Ok? {
      MoveSucceedsExactly(charged.value, Launch(mint), Launch(s.cfg.mainMint), MainPart(amount));
    }
    hide Charged, Move;
  }

  /** A claim on another launch is charged, then credited to that launch, then to the main one. */
  lemma OtherRoute(s: State, mint: Pubkey, payer: Pubkey, main: Option<Address>, amount: u64)
    requires SplitAmounts(amount).Ok? && mint != s.cfg.mainMint
    ensures var split, charged := SplitAmounts(amount).value, Charged(s, mint, payer, SplitAmounts(amount).value.protocolFee);
      var pools := ApplyTo(s.pools, mint, split.reward);
      Route(s, mint, payer, main, amount).Ok? <==>
        && charged.Ok?
        && pools.Ok?
        && (split.mainReward > 0 ==>
              && main == Some(Launch(s.cfg.mainMint))
              && s.cfg.mainMint in s.pools
              && Move(charged.value, Launch(mint), Launch(s.cfg.mainMint), split.mainReward).Ok?
              && ApplyTo(pools.value, s.cfg.mainMint, split.mainReward).Ok?)
  {
    hide SplitAmounts, TopUp, Move, ApplyTo;
  }

  lemma OtherSharesExactly(s: State, mint: Pubkey, payer: Pubkey, remaining: seq<Address>, amount: u64)
    requires amount <= Balance(s.lamports, Launch(mint)) && mint in s.pools && mint != s.cfg.mainMint
    ensures RouteSwept(Swept(s, amount), mint, payer, remaining).Ok?
       <==> CanShare(s, mint, remaining, amount, Balance(s.lamports, Wallet(payer)))
  {
    hide Route, Charged, SplitAmounts, FeePart, MainPart, BatchFits, Move, ApplyTo, VaultShort, Balance;
    PartsOfClaim(amount);
    if remaining == [] {
      assert RouteSwept(Swept(s, amount), mint, payer, remaining).Err?;
    } else if SplitAmounts(amount).Ok? {
      FeeGoesExactly(s, mint, payer, amount);
      MainMoves(s, mint, payer, amount);
      OtherRoute(s, mint, payer, Some(remaining[0]), amount);
      TwoBatches(s.pools, mint, s.cfg.mainMint, amount - FeePart(amount) - MainPart(amount), MainPart(amount));
    } else {
      UnsplitStays(s, mint, payer, Some(remaining[0]), amount);
    }
  }

  lemma UnsplitStays(s: State, mint: Pubkey, payer: Pubkey, main: Option<Address>, amount: u64)
    requires SplitAmounts(amount).Err?
    ensures Route(s, mint, payer, main, amount).Err?
  {
  }

  lemma SharesExactly(s: State, mint: Pubkey, payer: Pubkey, remaining: seq<Address>, amount: u64)
    requires amount <= Balance(s.lamports, Launch(mint)) && mint in s.pools
    ensures RouteSwept(Swept(s, amount), mint, payer, remaining).Ok?
       <==> CanShare(s, mint, remaining, amount, Balance(s.lamports, Wallet(payer)))
  {
    hide RouteSwept, CanShare;
    if mint == s.cfg.mainMint {
      MainSharesExactly(s, mint, payer, remaining, amount);
    } else {
      OtherSharesExactly(s, mint, payer, remaining, amount);
    }
  }

  /** What every launch, and the fee vault, receive of a claim. */
  lemma SharesAreParts(cfg: Config, mint: Pubkey, amount: u64, m: Pubkey)
    requires 1 <= amount <= 7_378_697_629_483_820
    ensures FeeOf(amount) == FeePart(amount)
    ensures ShareOf(cfg, mint, amount, m)
         == (if m == mint then amount - FeePart(amount) - (if mint == cfg.mainMint then 0 else MainPart(amount))
             else if m == cfg.mainMint then MainPart(amount) else 0)
  {
    PartsOfClaim(amount);
    hide SplitAmounts, FeePart, MainPart;
  }

  // ---- Pump.fun ----

  /** What the fee owner is short of its floor, and what it holds above it. */
  function OwnerShort(s: State, mint: Pubkey): nat {
    Excess(s.cfg.rentFloor, Balance(s.lamports, FeeOwner(mint)))
  }

  function OwnerSurplus(s: State, mint: Pubkey): nat {
    Excess(Balance(s.lamports, FeeOwner(mint)), s.cfg.rentFloor)
  }

  /** The creator vault can hand over `collected`, the payer can fund the fee owner, and everything fits. */
  predicate CanSweepPump(s: State, mint: Pubkey, payer: Pubkey, collected: nat) {
    && OwnerShort(s, mint) <= Balance(s.lamports, Wallet(payer))
    && (collected > 0 ==> s.cfg.creatorFloor + collected <= Balance(s.lamports, CreatorVault(mint)))
    && Balance(s.lamports, FeeOwner(mint)) + OwnerShort(s, mint) + collected <= U64_MAX
    && OwnerSurplus(s, mint) + collected > 0
    && Balance(s.lamports, Launch(mint)) + OwnerSurplus(s, mint) + collected <= U64_MAX
  }

  /** Bringing the fee owner to its floor. */
  lemma ReadyExactly(s: State, mint: Pubkey, payer: Pubkey)
    ensures var ready := TopUp(s.lamports, Wallet(payer), FeeOwner(mint), s.cfg.rentFloor);
      && (ready.Ok? <==> OwnerShort(s, mint) <= Balance(s.lamports, Wallet(payer)))
      && (ready.Ok? ==>
            && Balance(ready.value, FeeOwner(mint)) == Balance(s.lamports, FeeOwner(mint)) + OwnerShort(s, mint)
            && Balance(ready.value, Wallet(payer)) == Balance(s.lamports, Wallet(payer)) - OwnerShort(s, mint)
            && forall a: Address :: a != FeeOwner(mint) && a != Wallet(payer) ==> Balance(ready.value, a) == Balance(s.lamports, a))
  {
    var short := OwnerShort(s, mint);
    TopUpSucceedsExactly(s.lamports, Wallet(payer), FeeOwner(mint), s.cfg.rentFloor);
    if short > 0 && TopUp(s.lamports, Wallet(payer), FeeOwner(mint), s.cfg.rentFloor).Ok? {
      MoveConserves(s.lamports, Wallet(payer), FeeOwner(mint), short);
    }
  }

  /** The sweep succeeds exactly when it can, and then has moved these lamports. */
  lemma SweepPumpExactly(s: State, mint: Pubkey, payer: Pubkey, collected: u64)
    ensures PumpSweep(s, mint, payer, collected).Ok? <==> CanSweepPump(s, mint, payer, collected)
    ensures PumpSweep(s, mint, payer, collected).Ok? ==>
              var out := PumpSweep(s, mint, payer, collected).value;
              && out.amount == OwnerSurplus(s, mint) + collected
              && out.state == s.(lamports := out.state.lamports)
              && Balance(out.state.lamports, Wallet(payer)) == Balance(s.lamports, Wallet(payer)) - OwnerShort(s, mint)
              && Balance(out.state.lamports, FeeVault(mint)) == Balance(s.lamports, FeeVault(mint))
              && forall m: Pubkey :: Balance(out.state.lamports, Launch(m))
                   == Balance(s.lamports, Launch(m)) + (if m == mint then out.amount else 0)
  {
    hide TopUp, Move, Balance;
    ReadyExactly(s, mint, payer);
    var ready := TopUp(s.lamports, Wallet(payer), FeeOwner(mint), s.cfg.rentFloor);
    if ready.Ok? {
      MoveSucceedsExactly(ready.value, CreatorVault(mint), FeeOwner(mint), collected);
      var gathered := Move(ready.value, CreatorVault(mint), FeeOwner(mint), collected);
      if gathered.Ok? {
        MoveConserves(ready.value, CreatorVault(mint), FeeOwner(mint), collected);
        var amount := Balance(gathered.value, FeeOwner(mint)) - s.cfg.rentFloor;
        MoveSucceedsExactly(gathered.value, FeeOwner(mint), Launch(mint), amount);
        if Move(gathered.value, FeeOwner(mint), Launch(mint), amount).Ok? {
          MoveConserves(gathered.value, FeeOwner(mint), Launch(mint), amount);
        }
      }
    }
  }

  /** Sharing depends on the pools, the fee vault and the main launch's lamports, which a sweep leaves alone. */
  lemma SameSharing(s: State, mid: State, mint: Pubkey, remaining: seq<Address>, amount: nat, funds: nat)
    requires mid.cfg == s.cfg && mid.pools == s.pools
    requires Balance(mid.lamports, FeeVault(mint)) == Balance(s.lamports, FeeVault(mint))
    requires forall m: Pubkey :: m != mint ==> Balance(mid.lamports, Launch(m)) == Balance(s.lamports, Launch(m))
    ensures CanShare(mid, mint, remaining, amount, funds) <==> CanShare(s, mint, remaining, amount, funds)
  {
    hide BatchFits, FeePart, MainPart;
  }

  predicate Active(s: State, mint: Pubkey) {
    mint in s.pools && s.pools[mint].launch.totalWeightedStake > 0
  }

  /**
   * A Pump.fun claim succeeds exactly when the launch has active stake, the creator vault holds
   * what is collected above its floor, the payer can fund what the fee owner and the fee vault are
   * short of theirs, everything fits, and what is claimed can be shared out.
   */
  lemma PumpClaimSucceedsExactly(s: State, mint: Pubkey, payer: Pubkey, collected: u64, remaining: seq<Address>)
    ensures Attempt(s, ClaimPumpFees(mint, payer, collected, remaining)).Ok? <==>
      && Active(s, mint)
      && CanSweepPump(s, mint, payer, collected)
      && CanShare(s, mint, remaining, OwnerSurplus(s, mint) + collected,
                  Balance(s.lamports, Wallet(payer)) - OwnerShort(s, mint))
  {
    SweepPumpExactly(s, mint, payer, collected);
    hide PumpSweep, RouteSwept, CanSweepPump, CanShare, OwnerSurplus, OwnerShort;
    if PumpSweep(s, mint, payer, collected).Ok? && Active(s, mint) {
      var out := PumpSweep(s, mint, payer, collected).value;
      assert out == Swept(out.state, out.amount);
      SharesExactly(out.state, mint, payer, remaining, out.amount);
      SameSharing(s, out.state, mint, remaining, out.amount, Balance(out.state.lamports, Wallet(payer)));
    }
  }

  // ---- PumpSwap ----

  /** Both wrapped-SOL accounts exist and hold what is needed, and everything fits. */
  predicate CanSweepPumpSwap(s: State, mint: Pubkey, collected: nat) {
    var source, target := CoinCreatorAta(mint), FeeOwnerWsol(mint);
    && source in s.wsol && target in s.wsol
    && collected <= s.wsol[source] && 0 < s.wsol[target] + collected <= U64_MAX
    && (collected > 0 ==> collected <= Balance(s.lamports, source))
    && 0 < Balance(s.lamports, target) + collected <= U64_MAX
    && Balance(s.lamports, Launch(mint)) + Balance(s.lamports, target) + collected <= U64_MAX
  }

  lemma SweepPumpSwapExactly(s: State, mint: Pubkey, collected: u64)
    ensures PumpSwapSweep(s, mint, collected).Ok? <==> CanSweepPumpSwap(s, mint, collected)
    ensures PumpSwapSweep(s, mint, collected).Ok? ==>
              var out := PumpSwapSweep(s, mint, collected).value;
              && out.amount == Balance(s.lamports, FeeOwnerWsol(mint)) + collected
              && out.state == s.(lamports := out.state.lamports, wsol := out.state.wsol)
              && (forall a: Address :: a.Wallet? || a.FeeVault? ==> Balance(out.state.lamports, a) == Balance(s.lamports, a))
              && forall m: Pubkey :: Balance(out.state.lamports, Launch(m))
                   == Balance(s.lamports, Launch(m)) + (if m == mint then out.amount else 0)
  {
    hide Move;
    var source, target := CoinCreatorAta(mint), FeeOwnerWsol(mint);
    MoveSucceedsExactly(s.lamports, source, target, collected);
    if Move(s.lamports, source, target, collected).Ok? {
      MoveConserves(s.lamports, source, target, collected);
      var gathered := Move(s.lamports, source, target, collected).value;
      MoveSucceedsExactly(gathered, target, Launch(mint), Balance(gathered, target));
      if Move(gathered, target, Launch(mint), Balance(gathered, target)).Ok? {
        MoveConserves(gathered, target, Launch(mint), Balance(gathered, target));
      }
    }
  }

  /** The same for a PumpSwap claim, which distributes all the lamports of the account it closes. */
  lemma PumpSwapClaimSucceedsExactly(s: State, mint: Pubkey, payer: Pubkey, collected: u64, remaining: seq<Address>)
    ensures Attempt(s, ClaimPumpSwapFees(mint, payer, collected, remaining)).Ok? <==>
      && Active(s, mint)
      && CanSweepPumpSwap(s, mint, collected)
      && CanShare(s, mint, remaining, Balance(s.lamports, FeeOwnerWsol(mint)) + collected, Balance(s.lamports, Wallet(payer)))
  {
    SweepPumpSwapExactly(s, mint, collected);
    hide PumpSwapSweep, RouteSwept, CanSweepPumpSwap, CanShare;
    if PumpSwapSweep(s, mint, collected).Ok? && Active(s, mint) {
      var out := PumpSwapSweep(s, mint, collected).value;
      assert out == Swept(out.state, out.amount);
      SharesExactly(out.state, mint, payer, remaining, out.amount);
      SameSharing(s, out.state, mint, remaining, out.amount, Balance(out.state.lamports, Wallet(payer)));
    }
  }

  // ---- The other transactions ----

  /**
   * A protocol claim succeeds exactly when the launch exists, its fee vault holds something above
   * the floor, and the authority's wallet can take it; then exactly that much has moved.
   */
  lemma ProtocolClaimSucceedsExactly(s: State, mint: Pubkey, authority: Pubkey)
    ensures var held, floor := Balance(s.lamports, FeeVault(mint)), s.cfg.rentFloor;
      Attempt(s, ClaimProtocolFees(mint, authority)).Ok? <==>
        && mint in s.pools
        && floor < held
        && Balance(s.lamports, Wallet(authority)) + held - floor <= U64_MAX
    ensures Attempt(s, ClaimProtocolFees(mint, authority)).Ok? ==>
              var t := Execute(s, ClaimProtocolFees(mint, authority));
              && t == s.(lamports := t.lamports)
              && Balance(t.lamports, FeeVault(mint)) == s.cfg.rentFloor
              && Balance(t.lamports, Wallet(authority))
                 == Balance(s.lamports, Wallet(authority)) + Balance(s.lamports, FeeVault(mint)) - s.cfg.rentFloor
              && forall a: Address :: a != FeeVault(mint) && a != Wallet(authority) ==>
                   Balance(t.lamports, a) == Balance(s.lamports, a)
  {
    MoveSucceedsExactly(s.lamports, FeeVault(mint), Wallet(authority), Claimable(s, mint));
    if Attempt(s, ClaimProtocolFees(mint, authority)).Ok? {
      MoveConserves(s.lamports, FeeVault(mint), Wallet(authority), Claimable(s, mint));
    }
    hide Move;
  }

  /** What the account of a launch to be created is short of its rent. */
  function LaunchShort(s: State, mint: Pubkey): nat {
    Excess(s.cfg.launchFloor, Balance(s.lamports, Launch(mint)))
  }

  /**
   * A launch is created exactly when there is none and the payer can fund what its account is
   * short of its rent; it begins without weight and rewards, and everything else is as it was.
   */
  lemma CreationSucceedsExactly(s: State, mint: Pubkey, payer: Pubkey, held: u64)
    ensures var ix := InitializeLaunch(mint, payer, held);
      && (Attempt(s, ix).Ok? <==> mint !in s.pools && LaunchShort(s, mint) <= Balance(s.lamports, Wallet(payer)))
      && (Attempt(s, ix).Ok? ==>
            var t := Execute(s, ix);
            && t == s.(pools := s.pools[mint := Pool(LaunchConfig(0, 0, 0), map[], held)], lamports := t.lamports)
            && forall a: Address :: Balance(t.lamports, a) == Balance(s.lamports, a)
                 + (if a == Launch(mint) then LaunchShort(s, mint) else 0)
                 - (if a == Wallet(payer) then LaunchShort(s, mint) else 0))
  {
    TopUpSucceedsExactly(s.lamports, Wallet(payer), Launch(mint), s.cfg.launchFloor);
    if LaunchShort(s, mint) > 0 && LaunchShort(s, mint) <= Balance(s.lamports, Wallet(payer)) {
      MoveConserves(s.lamports, Wallet(payer), Launch(mint), LaunchShort(s, mint));
    }
    hide Move;
  }

  /** Wrapped-SOL accounts: one is opened where there is none, and a collection needs both and fits. */
  lemma WrappedSucceedsExactly(s: State, to: Address, rent: u64, mint: Pubkey, collected: u64)
    ensures Attempt(s, OpenWsol(to, rent)).Ok? <==>
      && to !in s.wsol && (to.CoinCreatorAta? || to.FeeOwnerWsol?)
      && Balance(s.lamports, to) + rent <= U64_MAX
    ensures Attempt(s, CollectWsol(mint, collected)).Ok? <==>
      && CoinCreatorAta(mint) in s.wsol && FeeOwnerWsol(mint) in s.wsol
      && collected <= s.wsol[CoinCreatorAta(mint)] && s.wsol[FeeOwnerWsol(mint)] + collected <= U64_MAX
      && (collected > 0 ==>
            && collected <= Balance(s.lamports, CoinCreatorAta(mint))
            && Balance(s.lamports, FeeOwnerWsol(mint)) + collected <= U64_MAX)
  {
    MoveSucceedsExactly(s.lamports, CoinCreatorAta(mint), FeeOwnerWsol(mint), collected);
    hide Move;
  }

  /** The world's own steps: a deposit arrives when it fits, and time moves forward. */
  lemma WorldSucceedsExactly(s: State)
    ensures forall to: Address, amount: u64 ::
              Attempt(s, Deposit(to, amount)).Ok? <==> Balance(s.lamports, to) + amount <= U64_MAX
    ensures forall to: Address, amount: u64 ::
              Attempt(s, DepositWsol(to, amount)).Ok? <==>
                to in s.wsol && s.wsol[to] + amount <= U64_MAX && Balance(s.lamports, to) + amount <= U64_MAX
    ensures forall mint: Pubkey, tokens: u64 ::
              Attempt(s, DepositTokens(mint, tokens)).Ok? <==> mint in s.pools && s.pools[mint].vault + tokens <= U64_MAX
    ensures forall ts: i64 :: Execute(s, AdvanceClock(ts)) == s.(clock := if s.clock <= ts then ts else s.clock)
  {
  }
}
