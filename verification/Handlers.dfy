/**
 * The instruction handlers as the program runs them: accounts are loaded, changed step by step
 * and stored, lamports move as they go, and the runtime rolls everything back on an error.
 *
 * Each handler is proved against the transaction relation of module SolProgram.
 */
module Handlers {
  import opened Types
  import opened Rewards
  import opened Lamports
  import opened Accounts
  import P = Pool
  import S = SolProgram

  class Program {
    const cfg: S.Config
    var pools: map<Pubkey, P.Pool>
    var lamports: Balances
    var wsol: map<Address, u64>
    var clock: i64

    function View(): S.State
      reads this
    {
      S.State(cfg, pools, lamports, wsol, clock)
    }

    constructor (cfg: S.Config, clock: i64)
      ensures View() == S.State(cfg, map[], map[], map[], clock)
    {
      this.cfg := cfg;
      this.clock := clock;
      pools, lamports, wsol := map[], map[], map[];
    }

    // ---- Moving lamports ----

    method MoveLamports(from: Address, to: Address, amount: u64) returns (r: Status)
      modifies this`lamports
      ensures match Move(old(lamports), from, to, amount)
              case Ok(moved) => r.Ok? && lamports == moved
              case Err(e) => r == Err(e)
    {
      if amount > 0 {
        var rest :- CheckedSub64(Balance(lamports, from), amount);
        lamports := Put(lamports, from, rest);
        var sum :- CheckedAdd64(Balance(lamports, to), amount);
        lamports := Put(lamports, to, sum);
      }
      return Ok(());
    }

    method MoveFor(from: Address, to: Address, amount: u64, error: Error) returns (r: Status)
      modifies this`lamports
      ensures match MoveBy(old(lamports), from, to, amount, error)
              case Ok(moved) => r.Ok? && lamports == moved
              case Err(e) => r == Err(e)
    {
      r := MoveLamports(from, to, amount);
      if r.Err? {
        r := Err(error);
      }
    }

    /** `ensure_protocol_fee_vault`: the vault may be funded, short of its floor, or not exist yet. */
    method EnsureFeeVault(payer: Pubkey, mint: Pubkey) returns (r: Status)
      modifies this`lamports
      ensures match TopUp(old(lamports), Wallet(payer), FeeVault(mint), cfg.rentFloor)
              case Ok(funded) => r.Ok? && lamports == funded
              case Err(e) => r == Err(e)
    {
      var held := Balance(lamports, FeeVault(mint));
      if held >= cfg.rentFloor {
        return Ok(());
      }
      if held > 0 {
        var shortfall :- CheckedSub64(cfg.rentFloor, held);
        r := MoveFor(Wallet(payer), FeeVault(mint), shortfall, SystemError);
        return;
      }
      r := MoveFor(Wallet(payer), FeeVault(mint), cfg.rentFloor, SystemError);
    }

    method EnsureFeeOwner(payer: Pubkey, mint: Pubkey) returns (r: Status)
      modifies this`lamports
      ensures match TopUp(old(lamports), Wallet(payer), FeeOwner(mint), cfg.rentFloor)
              case Ok(funded) => r.Ok? && lamports == funded
              case Err(e) => r == Err(e)
    {
      var held := Balance(lamports, FeeOwner(mint));
      if held >= cfg.rentFloor {
        return Ok(());
      }
      var shortfall :- CheckedSub64(cfg.rentFloor, held);
      r := MoveFor(Wallet(payer), FeeOwner(mint), shortfall, SystemError);
    }

    // ---- Staking ----

    /** `initialize_launch`: the runtime first brings the account to its rent floor, whatever it already holds. */
    method InitializeHandler(mint: Pubkey, payer: Pubkey, held: u64) returns (r: Status)
      modifies this
      ensures match S.Attempt(old(View()), S.InitializeLaunch(mint, payer, held))
              case Ok(after) => r.Ok? && View() == after
              case Err(e) => r == Err(e)
    {
      hide MoveBy;
      if mint in pools {
        return Err(AccountInUse);
      }
      var balance := Balance(lamports, Launch(mint));
      if balance < cfg.launchFloor {
        var missing :- CheckedSub64(cfg.launchFloor, balance);
        var _ :- MoveFor(Wallet(payer), Launch(mint), missing, SystemError);
      }
      var launch := new LaunchAccount.Init();
      pools := pools[mint := P.Pool(launch.Data(), map[], held)];
      return Ok(());
    }

    method StakeHandler(mint: Pubkey, owner: Pubkey, amount: u64, lockDays: nat, funds: u64) returns (r: Status)
      modifies this
      ensures match S.Attempt(old(View()), S.StakeTokens(mint, owner, amount, lockDays, funds))
              case Ok(after) => r.Ok? && View() == after
              case Err(e) => r == Err(e)
    {
      if mint !in pools {
        return Err(AccountMissing);
      }
      var pool := pools[mint];
      if owner in pool.positions {
        return Err(AccountInUse);
      }
      if amount == 0 {
        return Err(ZeroAmount);
      }
      if pool.launch.totalWeightedStake > 0 && !S.CleanVaults(View(), mint) {
        return Err(UnclaimedCreatorFees);
      }
      var multiplier :- LockMultiplier(lockDays);
      var weight :- WeightedAmount(amount, multiplier);
      var unlockTs :- UnlockTime(clock, lockDays);
      var vault :- P.TokensIn(pool.vault, amount, funds);
      var launch := new LaunchAccount.Load(pool.launch);
      var position := new PositionAccount.Init();
      position.amount := amount;
      position.weight := weight;
      position.unlockTs := unlockTs;
      position.rewardDebt :- RewardDebt(weight, launch.accRewardPerWeight);
      launch.totalWeightedStake :- CheckedAdd128(launch.totalWeightedStake, weight);
      pools := pools[mint := P.Pool(launch.Data(), pool.positions[owner := position.Data()], vault)];
      return Ok(());
    }

    lemma OnlyOverflows()
      ensures forall amount: u64, multiplier: u64 ::
                WeightedAmount(amount, multiplier).Ok? || WeightedAmount(amount, multiplier) == Err(MathOverflow)
      ensures forall weight: u128, acc: u128 :: RewardDebt(weight, acc).Ok? || RewardDebt(weight, acc) == Err(MathOverflow)
    {
    }

    method IncreaseHandler(mint: Pubkey, owner: Pubkey, amount: u64, lockDays: nat, funds: u64) returns (r: Status)
      modifies this
      ensures match S.Attempt(old(View()), S.IncreaseTokens(mint, owner, amount, lockDays, funds))
              case Ok(after) => r.Ok? && View() == after
              case Err(e) => r == Err(e)
    {
      hide Pending, P.TokensIn, S.CleanVaults, LockMultiplier, UnlockTime, Balance, Put, WeightedAmount, RewardDebt;
      OnlyOverflows();
      if mint !in pools || owner !in pools[mint].positions {
        return Err(AccountMissing);
      }
      var pool := pools[mint];
      if amount == 0 {
        return Err(ZeroAmount);
      }
      if !S.CleanVaults(View(), mint) {
        return Err(UnclaimedCreatorFees);
      }
      var multiplier :- LockMultiplier(lockDays);
      var unlockTs :- UnlockTime(clock, lockDays);
      var launch := new LaunchAccount.Load(pool.launch);
      var position := new PositionAccount.Load(pool.positions[owner]);
      var pending :- position.PendingReward(launch.accRewardPerWeight);
      if unlockTs < position.unlockTs {
        return Err(CannotShortenLock);
      }
      var vault :- P.TokensIn(pool.vault, amount, funds);
      if pending > 0 {
        var _ :- launch.TakeFromReserve(pending);
        var _ :- MoveLamports(Launch(mint), Wallet(owner), pending);
      }
      var newAmount :- CheckedAdd64(position.amount, amount);
      var newWeight :- WeightedAmount(newAmount, multiplier);
      launch.totalWeightedStake :- CheckedSub128(launch.totalWeightedStake, position.weight);
      launch.totalWeightedStake :- CheckedAdd128(launch.totalWeightedStake, newWeight);
      position.amount := newAmount;
      position.weight := newWeight;
      position.unlockTs := unlockTs;
      position.rewardDebt :- RewardDebt(newWeight, launch.accRewardPerWeight);
      pools := pools[mint := P.Pool(launch.Data(), pool.positions[owner := position.Data()], vault)];
      return Ok(());
    }

    method ClaimHandler(mint: Pubkey, owner: Pubkey) returns (r: Status)
      modifies this
      ensures match S.Attempt(old(View()), S.ClaimRewards(mint, owner))
              case Ok(after) => r.Ok? && View() == after
              case Err(e) => r == Err(e)
    {
      if mint !in pools || owner !in pools[mint].positions {
        return Err(AccountMissing);
      }
      var pool := pools[mint];
      var launch := new LaunchAccount.Load(pool.launch);
      var position := new PositionAccount.Load(pool.positions[owner]);
      var pending :- position.PendingReward(launch.accRewardPerWeight);
      if pending == 0 {
        return Err(NoRewards);
      }
      position.rewardDebt :- RewardDebt(position.weight, launch.accRewardPerWeight);
      var _ :- launch.TakeFromReserve(pending);
      var _ :- MoveLamports(Launch(mint), Wallet(owner), pending);
      pools := pools[mint := P.Pool(launch.Data(), pool.positions[owner := position.Data()], pool.vault)];
      return Ok(());
    }

    /**
     * The reward is paid before the principal is returned, so a payout that does not fit the
     * owner's wallet is reported ahead of a vault that lacks the principal.
     */
    method UnstakeHandler(mint: Pubkey, owner: Pubkey) returns (r: Status)
      modifies this
      ensures match S.Attempt(old(View()), S.UnstakeTokens(mint, owner))
              case Ok(after) => r.Ok? && View() == after
              case Err(e) =>
                r == Err(if e == TokenError && S.PayoutStuck(old(View()), mint, owner) then MathOverflow else e)
    {
      hide Pending, Balance, Put;
      if mint !in pools || owner !in pools[mint].positions {
        return Err(AccountMissing);
      }
      var pool := pools[mint];
      var launch := new LaunchAccount.Load(pool.launch);
      var position := new PositionAccount.Load(pool.positions[owner]);
      if clock < position.unlockTs {
        return Err(PositionLocked);
      }
      var pending :- position.PendingReward(launch.accRewardPerWeight);
      if pending > 0 {
        var _ :- launch.TakeFromReserve(pending);
        var _ :- MoveLamports(Launch(mint), Wallet(owner), pending);
      }
      launch.totalWeightedStake :- CheckedSub128(launch.totalWeightedStake, position.weight);
      if pool.vault < position.amount {
        return Err(TokenError);
      }
      pools := pools[mint := P.Pool(launch.Data(), pool.positions - {owner}, pool.vault - position.amount)];
      return Ok(());
    }

    // ---- Fees ----

    /**
     * `apply_rewards_with_protocol_fee_and_main_reward`. The claimed launch is loaded once and
     * stored last. The main launch is loaded and stored in between, unless it is the claimed
     * one: a second copy of the same account would be lost when the first is stored.
     */
    method RouteFees(mint: Pubkey, payer: Pubkey, main: Option<Address>, amount: u64) returns (r: Status)
      requires mint in pools
      modifies this`lamports, this`pools
      ensures match S.Route(old(View()), mint, payer, main, amount)
              case Ok(after) => r.Ok? && View() == after
              case Err(e) => r == Err(e)
    {
      hide TopUp, Move, P.ApplyRewards, ProtocolFee;
      var launch := new LaunchAccount.Load(pools[mint].launch);
      var split :- SplitAmounts(amount);
      if split.protocolFee > 0 {
        var _ :- EnsureFeeVault(payer, mint);
        var _ :- MoveLamports(Launch(mint), FeeVault(mint), split.protocolFee);
      } else {
        NothingMoves(lamports, Launch(mint), FeeVault(mint));
      }
      if mint == cfg.mainMint {
        var reward :- CheckedAdd64(split.reward, split.mainReward);
        var _ :- launch.ApplyRewards(reward);
        Store(mint, launch);
        return Ok(());
      }
      var _ :- launch.ApplyRewards(split.reward);
      if split.mainReward > 0 {
        if main != Some(Launch(cfg.mainMint)) || cfg.mainMint !in pools {
          return Err(InvalidMainRewardPool);
        }
        var _ :- MoveLamports(Launch(mint), Launch(cfg.mainMint), split.mainReward);
        var mainLaunch := new LaunchAccount.Load(pools[cfg.mainMint].launch);
        var _ :- mainLaunch.ApplyRewards(split.mainReward);
        Store(cfg.mainMint, mainLaunch);
        TwoStores(old(pools), cfg.mainMint, mainLaunch.Data(), mint, launch.Data());
      }
      Store(mint, launch);
      return Ok(());
    }

    /** Write a loaded launch account back. */
    method Store(mint: Pubkey, launch: LaunchAccount)
      requires mint in pools
      modifies this`pools
      ensures pools == WithLaunch(old(pools), mint, launch.Data())
    {
      pools := pools[mint := pools[mint].(launch := launch.Data())];
    }

    static function WithLaunch(pools: map<Pubkey, P.Pool>, mint: Pubkey, data: P.LaunchConfig): map<Pubkey, P.Pool>
      requires mint in pools
    {
      pools[mint := pools[mint].(launch := data)]
    }

    lemma TwoStores(pools: map<Pubkey, P.Pool>, m: Pubkey, a: P.LaunchConfig, n: Pubkey, b: P.LaunchConfig)
      requires m in pools && n in pools && m != n
      ensures WithLaunch(WithLaunch(pools, m, a), n, b) == WithLaunch(WithLaunch(pools, n, b), m, a)
    {
    }

    lemma NothingMoves(l: Balances, from: Address, to: Address)
      ensures Move(l, from, to, 0) == Ok(l)
    {
    }

    method SweepPump(mint: Pubkey, payer: Pubkey, collected: u64) returns (r: Result<u64>)
      modifies this`lamports
      ensures match S.PumpSweep(old(View()), mint, payer, collected)
              case Ok(swept) => r == Ok(swept.amount) && View() == swept.state
              case Err(e) => r == Err(e)
    {
      hide TopUp, Move;
      var _ :- EnsureFeeOwner(payer, mint);
      if collected > 0 && Balance(lamports, CreatorVault(mint)) < cfg.creatorFloor + collected {
        return Err(ForeignError);
      }
      var _ :- MoveFor(CreatorVault(mint), FeeOwner(mint), collected, ForeignError);
      var amount :- CheckedSub64(Balance(lamports, FeeOwner(mint)), cfg.rentFloor);
      if amount == 0 {
        return Err(NoRewards);
      }
      var _ :- MoveFor(FeeOwner(mint), Launch(mint), amount, SystemError);
      return Ok(amount);
    }

    /** What PumpSwap does with the two token accounts when it is called. */
    method CollectWsol(mint: Pubkey, collected: u64) returns (r: Status)
      modifies this`lamports, this`wsol
      ensures match S.Collect(old(View()), mint, collected)
              case Ok(after) => r.Ok? && View() == after
              case Err(e) => r == Err(e)
    {
      hide Move;
      var source, target := CoinCreatorAta(mint), FeeOwnerWsol(mint);
      if source !in wsol || target !in wsol {
        return Err(InvalidTokenAccount);
      }
      if wsol[source] < collected || wsol[target] + collected > U64_MAX {
        return Err(ForeignError);
      }
      var _ :- MoveFor(source, target, collected, ForeignError);
      wsol := wsol[source := wsol[source] - collected][target := wsol[target] + collected];
      return Ok(());
    }

    method SweepPumpSwap(mint: Pubkey, collected: u64) returns (r: Result<u64>)
      modifies this`lamports, this`wsol
      ensures match S.PumpSwapSweep(old(View()), mint, collected)
              case Ok(swept) => r == Ok(swept.amount) && View() == swept.state
              case Err(e) => r == Err(e)
    {
      hide Move;
      var target := FeeOwnerWsol(mint);
      var _ :- CollectWsol(mint, collected);
      if wsol[target] == 0 {
        return Err(NoRewards);
      }
      var amount := Balance(lamports, target);
      var _ :- MoveFor(target, Launch(mint), amount, TokenError);
      if amount == 0 {
        return Err(NoRewards);
      }
      wsol := wsol - {target};
      return Ok(amount);
    }

    method PumpClaimHandler(mint: Pubkey, payer: Pubkey, collected: u64, remaining: seq<Address>) returns (r: Status)
      modifies this
      ensures match S.PumpClaim(old(View()), mint, payer, collected, remaining)
              case Ok(after) => r.Ok? && View() == after
              case Err(e) => r == Err(e)
    {
      hide S.PumpSweep, S.Route;
      var _ :- S.RequireActiveStake(View(), mint);
      var amount :- SweepPump(mint, payer, collected);
      var main :- S.MainAccount(cfg, mint, remaining);
      r := RouteFees(mint, payer, main, amount);
    }

    method PumpSwapClaimHandler(mint: Pubkey, payer: Pubkey, collected: u64, remaining: seq<Address>) returns (r: Status)
      modifies this
      ensures match S.PumpSwapClaim(old(View()), mint, payer, collected, remaining)
              case Ok(after) => r.Ok? && View() == after
              case Err(e) => r == Err(e)
    {
      hide S.PumpSwapSweep, S.Route;
      var _ :- S.RequireActiveStake(View(), mint);
      var amount :- SweepPumpSwap(mint, collected);
      var main :- S.MainAccount(cfg, mint, remaining);
      r := RouteFees(mint, payer, main, amount);
    }

    method ProtocolClaimHandler(mint: Pubkey, authority: Pubkey) returns (r: Status)
      modifies this`lamports
      ensures match S.ProtocolClaim(old(View()), mint, authority)
              case Ok(after) => r.Ok? && View() == after
              case Err(e) => r == Err(e)
      ensures r.Ok? ==>
                && Balance(lamports, FeeVault(mint)) == cfg.rentFloor
                && Balance(lamports, Wallet(authority)) - Balance(old(lamports), Wallet(authority))
                   == Balance(old(lamports), FeeVault(mint)) - cfg.rentFloor > 0
    {
      hide Move;
      if mint !in pools {
        return Err(AccountMissing);
      }
      var amount := S.Claimable(View(), mint);
      if amount == 0 {
        return Err(NoRewards);
      }
      ghost var before := lamports;
      r := MoveFor(FeeVault(mint), Wallet(authority), amount, SystemError);
      if r.Ok? {
        MoveConserves(before, FeeVault(mint), Wallet(authority), amount);
      }
    }

    // ---- The runtime ----

    /** What is not the program's own doing. */
    method OutsideEvent(ix: S.Instruction) returns (r: Status)
      requires ix.Deposit? || ix.DepositWsol? || ix.OpenWsol? || ix.CollectWsol?
            || ix.DepositTokens? || ix.AdvanceClock?
      modifies this
      ensures match S.Attempt(old(View()), ix)
              case Ok(after) => r.Ok? && View() == after
              case Err(e) => r == Err(e)
    {
      var after :- S.Attempt(View(), ix);
      pools, lamports, wsol, clock := after.pools, after.lamports, after.wsol, after.clock;
      return Ok(());
    }

    method Dispatch(ix: S.Instruction) returns (r: Status)
      modifies this
      ensures match S.Attempt(old(View()), ix)
              case Ok(after) => r.Ok? && View() == after
              case Err(_) => r.Err?
    {
      hide S.StakingStep, S.PumpClaim, S.PumpSwapClaim, S.ProtocolClaim;
      match ix
      case StakeTokens(mint, owner, amount, lockDays, funds) => r := StakeHandler(mint, owner, amount, lockDays, funds);
      case IncreaseTokens(mint, owner, amount, lockDays, funds) => r := IncreaseHandler(mint, owner, amount, lockDays, funds);
      case ClaimRewards(mint, owner) => r := ClaimHandler(mint, owner);
      case UnstakeTokens(mint, owner) => r := UnstakeHandler(mint, owner);
      case ClaimPumpFees(mint, payer, collected, remaining) => r := PumpClaimHandler(mint, payer, collected, remaining);
      case ClaimPumpSwapFees(mint, payer, collected, remaining) =>
        r := PumpSwapClaimHandler(mint, payer, collected, remaining);
      case ClaimProtocolFees(mint, authority) => r := ProtocolClaimHandler(mint, authority);
      case InitializeLaunch(mint, payer, held) => r := InitializeHandler(mint, payer, held);
      case _ => r := OutsideEvent(ix);
    }

    /** One transaction: on an error every account is as it was, however far the handler had come. */
    method Execute(ix: S.Instruction) returns (r: Status)
      modifies this
      ensures View() == S.Execute(old(View()), ix)
      ensures r.Ok? <==> S.Attempt(old(View()), ix).Ok?
      ensures r.Err? ==> View() == old(View())
    {
      hide S.Attempt;
      var saved := View();
      r := Dispatch(ix);
      if r.Err? {
        pools, lamports, wsol, clock := saved.pools, saved.lamports, saved.wsol, saved.clock;
      }
    }
  }
}
