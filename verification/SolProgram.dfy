/**
 * The whole SOL side of the program: any number of launches, one of them the main coin, the
 * lamports of every account involved, and the instructions that move them.
 *
 * A transaction either succeeds or leaves every account as it was.
 */
module SolProgram {
  import opened Types
  import opened Rewards
  import opened Pool
  import opened Lamports

  /**
   * rentFloor: the rent-exempt minimum of an empty account; creatorFloor: that of a creator
   * vault; launchFloor: that of a launch account.
   */
  datatype Config = Config(mainMint: Pubkey, rentFloor: u64, creatorFloor: u64, launchFloor: u64)

  /** `wsol` holds the token balance of each existing wrapped-SOL token account. */
  datatype State = State(
    cfg: Config,
    pools: map<Pubkey, Pool>,
    lamports: Balances,
    wsol: map<Address, u64>,
    clock: i64)

  /**
   * `collected` is what the Pump program hands over, `remaining` the extra accounts the caller
   * passes. `held` is what the staking vault holds when a launch is initialized. Deposits,
   * OpenWsol, CollectWsol and AdvanceClock are the doing of the world outside the program:
   * PumpSwap's collect instruction carries no signature of the fee owner, so it may also happen
   * outside a claim.
   */
  datatype Instruction =
    | InitializeLaunch(mint: Pubkey, payer: Pubkey, held: u64)
    | StakeTokens(mint: Pubkey, owner: Pubkey, amount: u64, lockDays: nat, funds: u64)
    | IncreaseTokens(mint: Pubkey, owner: Pubkey, amount: u64, lockDays: nat, funds: u64)
    | ClaimRewards(mint: Pubkey, owner: Pubkey)
    | UnstakeTokens(mint: Pubkey, owner: Pubkey)
    | ClaimPumpFees(mint: Pubkey, payer: Pubkey, collected: u64, remaining: seq<Address>)
    | ClaimPumpSwapFees(mint: Pubkey, payer: Pubkey, collected: u64, remaining: seq<Address>)
    | ClaimProtocolFees(mint: Pubkey, authority: Pubkey)
    | Deposit(to: Address, amount: u64)
    | DepositWsol(to: Address, amount: u64)
    | OpenWsol(to: Address, rent: u64)
    | CollectWsol(mint: Pubkey, collected: u64)
    | DepositTokens(mint: Pubkey, tokens: u64)
    | AdvanceClock(ts: i64)

  /** The creator vaults of the launch's direct route hold nothing that could be claimed. */
  predicate CleanVaults(s: State, mint: Pubkey) {
    && Balance(s.lamports, CreatorVault(mint)) <= s.cfg.creatorFloor
    && (CoinCreatorAta(mint) in s.wsol ==> s.wsol[CoinCreatorAta(mint)] == 0)
  }

  /** A staking instruction on one launch, with the payout going to the owner's wallet. */
  function StakingStep(s: State, mint: Pubkey, op: Op, owner: Pubkey): Result<State> {
    if mint !in s.pools then
      Err(AccountMissing)
    else
      var out :- Step(s.pools[mint], op, s.clock);
      var lamports :- Move(s.lamports, Launch(mint), Wallet(owner), out.paid);
      Ok(s.(pools := s.pools[mint := out.pool], lamports := lamports))
  }

  /** The pending reward of a position is there to be paid, but cannot be moved to the owner's wallet. */
  predicate PayoutStuck(s: State, mint: Pubkey, owner: Pubkey) {
    && mint in s.pools && owner in s.pools[mint].positions
    && var q := s.pools[mint].positions[owner];
       var pending := Pending(q.weight, q.rewardDebt, s.pools[mint].launch.accRewardPerWeight);
       && pending.Ok? && PayRewards(s.pools[mint].launch, pending.value).Ok?
       && Move(s.lamports, Launch(mint), Wallet(owner), pending.value).Err?
  }

  // ---- The fee router ----

  /** One batch applied to the pool of `mint`. */
  function ApplyTo(pools: map<Pubkey, Pool>, mint: Pubkey, amount: u64): Result<map<Pubkey, Pool>> {
    if mint !in pools then
      Err(InvalidMainRewardPool)
    else
      var launch :- ApplyRewards(pools[mint].launch, amount);
      Ok(pools[mint := pools[mint].(launch := launch)])
  }

  /** The launch account that should receive the main-coin share, and whether it was supplied. */
  function MainAccount(cfg: Config, mint: Pubkey, remaining: seq<Address>): Result<Option<Address>> {
    if mint == cfg.mainMint then Ok(None)
    else if remaining == [] then Err(InvalidMainRewardPool)
    else Ok(Some(remaining[0]))
  }

  /** Splitting `amount`, already held by the launch account, between fee vault, launch and main coin. */
  function Route(s: State, mint: Pubkey, payer: Pubkey, main: Option<Address>, amount: u64): Result<State> {
    var split :- SplitAmounts(amount);
    var funded :- if split.protocolFee > 0 then
      TopUp(s.lamports, Wallet(payer), FeeVault(mint), s.cfg.rentFloor) else Ok(s.lamports);
    var charged :- Move(funded, Launch(mint), FeeVault(mint), split.protocolFee);
    if mint == s.cfg.mainMint then
      var reward :- CheckedAdd64(split.reward, split.mainReward);
      var pools :- ApplyTo(s.pools, mint, reward);
      Ok(s.(pools := pools, lamports := charged))
    else
      var pools :- ApplyTo(s.pools, mint, split.reward);
      if split.mainReward == 0 then
        Ok(s.(pools := pools, lamports := charged))
      else if main != Some(Launch(s.cfg.mainMint)) || s.cfg.mainMint !in s.pools then
        Err(InvalidMainRewardPool)
      else
        var moved :- Move(charged, Launch(mint), Launch(s.cfg.mainMint), split.mainReward);
        var both :- ApplyTo(pools, s.cfg.mainMint, split.mainReward);
        Ok(s.(pools := both, lamports := moved))
  }

  /** The state in which the launch account holds what a claim collected, and that amount. */
  datatype Swept = Swept(state: State, amount: u64)

  /** Collect from Pump.fun into the fee owner and sweep its surplus into the launch. */
  function PumpSweep(s: State, mint: Pubkey, payer: Pubkey, collected: u64): Result<Swept> {
    var floor := s.cfg.rentFloor;
    var ready :- TopUp(s.lamports, Wallet(payer), FeeOwner(mint), floor);
    if collected > 0 && Balance(ready, CreatorVault(mint)) < s.cfg.creatorFloor + collected then
      Err(ForeignError)
    else
      var gathered :- MoveBy(ready, CreatorVault(mint), FeeOwner(mint), collected, ForeignError);
      var amount :- CheckedSub64(Balance(gathered, FeeOwner(mint)), floor);
      if amount == 0 then
        Err(NoRewards)
      else
        var swept :- Transfer(gathered, FeeOwner(mint), Launch(mint), amount);
        Ok(Swept(s.(lamports := swept), amount))
  }

  /** PumpSwap moves wrapped SOL from the creator vault to the fee owner's token account. */
  function Collect(s: State, mint: Pubkey, collected: u64): Result<State> {
    var source, target := CoinCreatorAta(mint), FeeOwnerWsol(mint);
    if source !in s.wsol || target !in s.wsol then
      Err(InvalidTokenAccount)
    else if s.wsol[source] < collected || s.wsol[target] + collected > U64_MAX then
      Err(ForeignError)
    else
      var gathered :- MoveBy(s.lamports, source, target, collected, ForeignError);
      Ok(s.(lamports := gathered, wsol := s.wsol[source := s.wsol[source] - collected][target := s.wsol[target] + collected]))
  }

  /** Collect wrapped SOL from PumpSwap and close the token account into the launch, rent included. */
  function PumpSwapSweep(s: State, mint: Pubkey, collected: u64): Result<Swept> {
    var target := FeeOwnerWsol(mint);
    var gathered :- Collect(s, mint, collected);
    if gathered.wsol[target] == 0 then
      Err(NoRewards)
    else
      var amount := Balance(gathered.lamports, target);
      var closed :- MoveBy(gathered.lamports, target, Launch(mint), amount, TokenError);
      if amount == 0 then
        Err(NoRewards)
      else
        Ok(Swept(gathered.(lamports := closed, wsol := gathered.wsol - {target}), amount))
  }

  /** A fee claim, once active stake is known to exist: sweep, find the main launch, route. */
  function RouteSwept(swept: Swept, mint: Pubkey, payer: Pubkey, remaining: seq<Address>): Result<State> {
    var main :- MainAccount(swept.state.cfg, mint, remaining);
    Route(swept.state, mint, payer, main, swept.amount)
  }

  /** The check every fee claim starts with. */
  function RequireActiveStake(s: State, mint: Pubkey): Status {
    if mint !in s.pools then Err(AccountMissing)
    else if s.pools[mint].launch.totalWeightedStake == 0 then Err(NoActiveStake)
    else Ok(())
  }

  function PumpClaim(s: State, mint: Pubkey, payer: Pubkey, collected: u64, remaining: seq<Address>): Result<State> {
    var _ :- RequireActiveStake(s, mint);
    var swept :- PumpSweep(s, mint, payer, collected);
    RouteSwept(swept, mint, payer, remaining)
  }

  function PumpSwapClaim(s: State, mint: Pubkey, payer: Pubkey, collected: u64, remaining: seq<Address>): Result<State> {
    var _ :- RequireActiveStake(s, mint);
    var swept :- PumpSwapSweep(s, mint, collected);
    RouteSwept(swept, mint, payer, remaining)
  }

  function Claimable(s: State, mint: Pubkey): u64 {
    var held := Balance(s.lamports, FeeVault(mint));
    if held <= s.cfg.rentFloor then 0 else held - s.cfg.rentFloor
  }

  function ProtocolClaim(s: State, mint: Pubkey, authority: Pubkey): Result<State> {
    if mint !in s.pools then
      Err(AccountMissing)
    else if Claimable(s, mint) == 0 then
      Err(NoRewards)
    else
      var lamports :- Transfer(s.lamports, FeeVault(mint), Wallet(authority), Claimable(s, mint));
      Ok(s.(lamports := lamports))
  }

  /** Lamports arriving from outside. */
  function Receive(l: Balances, to: Address, amount: u64): Result<Balances> {
    var sum :- CheckedAdd64(Balance(l, to), amount);
    Ok(Put(l, to, sum))
  }

  function Attempt(s: State, ix: Instruction): Result<State> {
    match ix
    case InitializeLaunch(mint, payer, held) =>
      if mint in s.pools then Err(AccountInUse)
      else
        var lamports :- TopUp(s.lamports, Wallet(payer), Launch(mint), s.cfg.launchFloor);
        Ok(s.(pools := s.pools[mint := Pool(EMPTY_LAUNCH, map[], held)], lamports := lamports))
    case StakeTokens(mint, owner, amount, lockDays, funds) =>
      StakingStep(s, mint, Stake(owner, amount, lockDays, funds, CleanVaults(s, mint)), owner)
    case IncreaseTokens(mint, owner, amount, lockDays, funds) =>
      StakingStep(s, mint, Increase(owner, amount, lockDays, funds, CleanVaults(s, mint)), owner)
    case ClaimRewards(mint, owner) => StakingStep(s, mint, Claim(owner), owner)
    case UnstakeTokens(mint, owner) => StakingStep(s, mint, Unstake(owner), owner)
    case ClaimPumpFees(mint, payer, collected, remaining) => PumpClaim(s, mint, payer, collected, remaining)
    case ClaimPumpSwapFees(mint, payer, collected, remaining) => PumpSwapClaim(s, mint, payer, collected, remaining)
    case ClaimProtocolFees(mint, authority) => ProtocolClaim(s, mint, authority)
    case Deposit(to, amount) =>
      var lamports :- Receive(s.lamports, to, amount);
      Ok(s.(lamports := lamports))
    case DepositWsol(to, amount) =>
      if to !in s.wsol || s.wsol[to] + amount > U64_MAX then Err(TokenError)
      else
        var lamports :- Receive(s.lamports, to, amount);
        Ok(s.(lamports := lamports, wsol := s.wsol[to := s.wsol[to] + amount]))
    case OpenWsol(to, rent) =>
      if to in s.wsol || !(to.CoinCreatorAta? || to.FeeOwnerWsol?) then Err(AccountInUse)
      else
        var lamports :- Receive(s.lamports, to, rent);
        Ok(s.(lamports := lamports, wsol := s.wsol[to := 0]))
    case CollectWsol(mint, collected) => Collect(s, mint, collected)
    case DepositTokens(mint, tokens) =>
      if mint !in s.pools then Err(AccountMissing)
      else
        var out :- Step(s.pools[mint], VaultDeposit(tokens), s.clock);
        Ok(s.(pools := s.pools[mint := out.pool]))
    case AdvanceClock(ts) => if s.clock <= ts then Ok(s.(clock := ts)) else Err(MathOverflow)
  }

  /** A failed transaction is rolled back. */
  function Execute(s: State, ix: Instruction): State {
    match Attempt(s, ix)
    case Ok(t) => t
    case Err(_) => s
  }

  function ExecuteAll(s: State, ixs: seq<Instruction>): State
    decreases |ixs|
  {
    if ixs == [] then s else Execute(ExecuteAll(s, ixs[..|ixs| - 1]), ixs[|ixs| - 1])
  }
}
