/** What one fee claim does to every account: the shares, the balances and the reserves. */
module Routing {
  import opened Types
  import opened Sums
  import opened Rewards
  import opened Pool
  import opened Lamports
  import opened SolProgram

  /** The reward reserve of a launch, zero before it is initialized. */
  function Reserve(s: State, mint: Pubkey): nat {
    if mint in s.pools then s.pools[mint].launch.rewardReserve else 0
  }

  /** What the stakers of `m` receive from a claim of `amount` on `mint`. */
  function ShareOf(cfg: Config, mint: Pubkey, amount: u64, m: Pubkey): nat {
    match SplitAmounts(amount)
    case Err(_) => 0
    case Ok(split) =>
      if m == mint then
        split.reward + (if mint == cfg.mainMint then split.mainReward else 0)
      else if m == cfg.mainMint then
        split.mainReward
      else
        0
  }

  function FeeOf(amount: u64): nat {
    match SplitAmounts(amount)
    case Err(_) => 0
    case Ok(split) => split.protocolFee
  }

  /** Every lamport of a claim is either the fee or somebody's share, and only two launches share. */
  lemma SharesAddUp(cfg: Config, mint: Pubkey, amount: u64)
    requires SplitAmounts(amount).Ok?
    ensures FeeOf(amount) + ShareOf(cfg, mint, amount, mint)
            + (if mint == cfg.mainMint then 0 else ShareOf(cfg, mint, amount, cfg.mainMint)) == amount
    ensures forall m :: m != mint && m != cfg.mainMint ==> ShareOf(cfg, mint, amount, m) == 0
  {
    SplitConserves(amount);
  }

  /** A pool after one batch of its share, or untouched when it has none. */
  ghost predicate PoolTookShare(p: Pool, q: Pool, share: nat) {
    if share == 0 then q == p
    else
      && share <= U64_MAX
      && ApplyRewards(p.launch, share).Ok?
      && q == p.(launch := ApplyRewards(p.launch, share).value)
  }

  /** The pools after a claim of `amount` on `mint`: each launch took exactly its share. */
  ghost predicate PoolsTookShares(s: State, t: State, mint: Pubkey, amount: u64) {
    && t.pools.Keys == s.pools.Keys
    && forall m :: m in s.pools ==> PoolTookShare(s.pools[m], t.pools[m], ShareOf(s.cfg, mint, amount, m))
  }

  ghost predicate SameWorld(s: State, t: State) {
    t.cfg == s.cfg && t.clock == s.clock
  }

  /** The accounts whose lamports a claim on `mint` paid by `payer` may change. */
  predicate Involved(cfg: Config, mint: Pubkey, payer: Pubkey, a: Address) {
    || (a.Launch? && (a.mint == mint || a.mint == cfg.mainMint))
    || (!a.Launch? && !a.Wallet? && a.mint == mint)
    || a == Wallet(payer)
  }

  lemma BatchTakesShare(pools: map<Pubkey, Pool>, mint: Pubkey, amount: u64)
    requires ApplyTo(pools, mint, amount).Ok? && amount > 0
    ensures var after := ApplyTo(pools, mint, amount).value;
      && mint in pools && after == pools[mint := after[mint]]
      && PoolTookShare(pools[mint], after[mint], amount)
  {
  }

  lemma RoutePools(s: State, mint: Pubkey, payer: Pubkey, main: Option<Address>, amount: u64)
    requires Route(s, mint, payer, main, amount).Ok?
    ensures var t := Route(s, mint, payer, main, amount).value;
      SplitAmounts(amount).Ok? && SameWorld(s, t) && t.wsol == s.wsol && PoolsTookShares(s, t, mint, amount)
  {
    hide TopUp, Move, ApplyRewards;
    SplitConserves(amount);
    var split := SplitAmounts(amount).value;
    if mint == s.cfg.mainMint {
      BatchTakesShare(s.pools, mint, split.reward + split.mainReward);
    } else {
      BatchTakesShare(s.pools, mint, split.reward);
      if split.mainReward > 0 {
        BatchTakesShare(ApplyTo(s.pools, mint, split.reward).value, s.cfg.mainMint, split.mainReward);
      }
    }
  }

  /** The lamports of a routed claim: the launch gives the fee to the vault and the main share to the main launch. */
  lemma {:induction false} RouteLamports(s: State, mint: Pubkey, payer: Pubkey, main: Option<Address>, amount: u64)
    requires Route(s, mint, payer, main, amount).Ok?
    ensures var t := Route(s, mint, payer, main, amount).value;
      var mainShare := if mint == s.cfg.mainMint then 0 else ShareOf(s.cfg, mint, amount, s.cfg.mainMint);
      var fee := FeeOf(amount);
      && Sum(t.lamports) == Sum(s.lamports)
      && (forall a: Address :: a != Launch(mint) && a != Launch(s.cfg.mainMint) && a != FeeVault(mint) && a != Wallet(payer) ==>
            Balance(t.lamports, a) == Balance(s.lamports, a))
      && Balance(t.lamports, Launch(mint)) == Balance(s.lamports, Launch(mint)) - fee - mainShare
      && (mint != s.cfg.mainMint ==>
            Balance(t.lamports, Launch(s.cfg.mainMint)) == Balance(s.lamports, Launch(s.cfg.mainMint)) + mainShare)
      && Balance(t.lamports, FeeVault(mint))
         == (if fee > 0 && Balance(s.lamports, FeeVault(mint)) < s.cfg.rentFloor then s.cfg.rentFloor
             else Balance(s.lamports, FeeVault(mint))) + fee
  {
    hide TopUp, Move, ApplyTo, Balance, Sum;
    var split := SplitAmounts(amount).value;
    var funded := s.lamports;
    if split.protocolFee > 0 {
      TopUpReachesFloor(s.lamports, Wallet(payer), FeeVault(mint), s.cfg.rentFloor);
      funded := TopUp(s.lamports, Wallet(payer), FeeVault(mint), s.cfg.rentFloor).value;
    }
    MoveConserves(funded, Launch(mint), FeeVault(mint), split.protocolFee);
    var charged := Move(funded, Launch(mint), FeeVault(mint), split.protocolFee).value;
    if mint != s.cfg.mainMint && split.mainReward > 0 {
      MoveConserves(charged, Launch(mint), Launch(s.cfg.mainMint), split.mainReward);
    }
  }

  /** Seen from the launches: each ends with its share, the claimed one having given up the claim. */
  lemma {:induction false} RouteLaunches(s: State, mint: Pubkey, payer: Pubkey, main: Option<Address>, amount: u64)
    requires Route(s, mint, payer, main, amount).Ok?
    ensures var t := Route(s, mint, payer, main, amount).value;
      forall m: Pubkey :: Balance(t.lamports, Launch(m)) + (if m == mint then amount else 0)
                          == Balance(s.lamports, Launch(m)) + ShareOf(s.cfg, mint, amount, m)
  {
    RoutePools(s, mint, payer, main, amount);
    RouteLamports(s, mint, payer, main, amount);
    SharesAddUp(s.cfg, mint, amount);
    hide Route, ShareOf, FeeOf, SplitAmounts, PoolsTookShares;
  }
}
