/**
 * Every error code that is returned names a reason that holds. Together with the exact success
 * conditions this fixes the code of every call that fails for one reason.
 */
module Refusals {
  import opened Arithmetic
  import opened Types
  import opened Rewards
  import opened Pool
  import opened Lamports
  import opened SolProgram
  import opened FeeClaims
  import opened FeeCalls
  import opened Quote
  import opened QuoteCalls

  predicate LockRefused(lockDays: nat) {
    lockDays != 7 && lockDays != 30 && lockDays != 90 && lockDays != 180
  }

  predicate DepositRefused(p: Pool, amount: u64, funds: u64) {
    funds < amount || p.vault + amount > U64_MAX
  }

  lemma StakeRefusal(p: Pool, op: Op, now: i64)
    requires op.Stake? && Step(p, op, now).Err?
    ensures match Step(p, op, now).error
      case AccountInUse => op.owner in p.positions
      case ZeroAmount => op.amount == 0
      case UnclaimedCreatorFees => p.launch.totalWeightedStake > 0 && !op.clean
      case InvalidLockDuration => LockRefused(op.lockDays)
      case TokenError => DepositRefused(p, op.amount, op.funds)
      case MathOverflow =>
        || now + 86_400 * op.lockDays > I64_MAX
        || Weighted(op.amount, op.lockDays) * p.launch.accRewardPerWeight > U128_MAX
        || p.launch.totalWeightedStake + Weighted(op.amount, op.lockDays) > U128_MAX
      case _ => false
  {
    if LockMultiplier(op.lockDays).Ok? {
      WeightBounds(op.amount, op.lockDays);
      WeightsMatchTerms(op.amount, op.lockDays);
    }
  }

  /** A pending amount is refused when its product, or what is left after the debt, does not fit. */
  predicate PendingRefused(q: StakePosition, acc: nat) {
    || q.weight * acc > U128_MAX
    || q.weight * acc / PRECISION < q.rewardDebt
    || q.weight * acc / PRECISION - q.rewardDebt > U64_MAX
  }

  lemma PendingRefusal(weight: u128, debt: u128, acc: u128)
    ensures Pending(weight, debt, acc).Ok? <==>
      weight * acc <= U128_MAX && 0 <= weight * acc / PRECISION - debt <= U64_MAX
    ensures Pending(weight, debt, acc).Err? ==> Pending(weight, debt, acc).error == MathOverflow
    ensures Pending(weight, debt, acc).Ok? ==> Pending(weight, debt, acc).value == weight * acc / PRECISION - debt
  {
  }

  lemma OpenedRefusal(l: LaunchConfig, amount: u64, lockDays: nat, unlockTs: i64)
    requires LockMultiplier(lockDays).Ok?
    ensures var position := Opened(l, amount, LockMultiplier(lockDays).value, unlockTs);
      && (position.Err? ==> position.error == MathOverflow && Weighted(amount, lockDays) * l.accRewardPerWeight > U128_MAX)
      && (position.Ok? ==> position.value.weight == Weighted(amount, lockDays))
  {
    WeightBounds(amount, lockDays);
    WeightsMatchTerms(amount, lockDays);
  }

  lemma IncreaseRefusal(p: Pool, op: Op, now: i64)
    requires op.Increase? && Step(p, op, now).Err?
    ensures match Step(p, op, now).error
      case AccountMissing => op.owner !in p.positions
      case ZeroAmount => op.amount == 0
      case UnclaimedCreatorFees => !op.clean
      case InvalidLockDuration => LockRefused(op.lockDays)
      case CannotShortenLock => op.owner in p.positions && now + 86_400 * op.lockDays < p.positions[op.owner].unlockTs
      case TokenError => DepositRefused(p, op.amount, op.funds)
      case InsufficientRewardReserve =>
        op.owner in p.positions && p.launch.rewardReserve < Owed(p.positions[op.owner], p.launch.accRewardPerWeight)
      case MathOverflow =>
        || now + 86_400 * op.lockDays > I64_MAX
        || (op.owner in p.positions &&
            var q := p.positions[op.owner];
            || PendingRefused(q, p.launch.accRewardPerWeight)
            || q.amount + op.amount > U64_MAX
            || Weighted(q.amount + op.amount, op.lockDays) * p.launch.accRewardPerWeight > U128_MAX
            || p.launch.totalWeightedStake < q.weight
            || p.launch.totalWeightedStake - q.weight + Weighted(q.amount + op.amount, op.lockDays) > U128_MAX)
      case _ => false
  {
    if op.owner in p.positions && LockMultiplier(op.lockDays).Ok? {
      var q := p.positions[op.owner];
      PendingRefusal(q.weight, q.rewardDebt, p.launch.accRewardPerWeight);
      if q.amount + op.amount <= U64_MAX && Pending(q.weight, q.rewardDebt, p.launch.accRewardPerWeight).Ok?
         && now + 86_400 * op.lockDays <= I64_MAX {
        var pending := Pending(q.weight, q.rewardDebt, p.launch.accRewardPerWeight).value;
        if pending <= p.launch.rewardReserve {
          OpenedRefusal(p.launch.(rewardReserve := p.launch.rewardReserve - pending), q.amount + op.amount, op.lockDays,
                        now + 86_400 * op.lockDays);
        }
      }
      hide Pending, Opened, Weighted;
    }
  }

  lemma ClaimRefusal(p: Pool, o: Pubkey, now: i64)
    requires Step(p, Claim(o), now).Err?
    ensures match Step(p, Claim(o), now).error
      case AccountMissing => o !in p.positions
      case NoRewards => o in p.positions && Owed(p.positions[o], p.launch.accRewardPerWeight) == 0
      case InsufficientRewardReserve =>
        o in p.positions && p.launch.rewardReserve < Owed(p.positions[o], p.launch.accRewardPerWeight)
      case MathOverflow => o in p.positions && PendingRefused(p.positions[o], p.launch.accRewardPerWeight)
      case _ => false
  {
  }

  lemma UnstakeRefusal(p: Pool, o: Pubkey, now: i64)
    requires Step(p, Unstake(o), now).Err?
    ensures match Step(p, Unstake(o), now).error
      case AccountMissing => o !in p.positions
      case PositionLocked => o in p.positions && now < p.positions[o].unlockTs
      case InsufficientRewardReserve =>
        o in p.positions && p.launch.rewardReserve < Owed(p.positions[o], p.launch.accRewardPerWeight)
      case TokenError => o in p.positions && p.vault < p.positions[o].amount
      case MathOverflow =>
        o in p.positions
        && (PendingRefused(p.positions[o], p.launch.accRewardPerWeight) || p.launch.totalWeightedStake < p.positions[o].weight)
      case _ => false
  {
  }

  lemma BatchRefusal(l: LaunchConfig, amount: u64)
    requires ApplyRewards(l, amount).Err?
    ensures match ApplyRewards(l, amount).error
      case NoActiveStake => l.totalWeightedStake == 0
      case NoRewards => amount * 1_000_000_000_000_000_000 < l.totalWeightedStake
      case MathOverflow =>
        l.totalWeightedStake > 0
        && (l.accRewardPerWeight + amount * 1_000_000_000_000_000_000 / l.totalWeightedStake > U128_MAX
            || l.rewardReserve + amount > U64_MAX)
      case _ => false
  {
    BatchFitsExactly(l, amount);
  }

  lemma TransferRefusal(l: Balances, from: Address, to: Address, amount: u64)
    ensures Move(l, from, to, amount).Err? ==> Move(l, from, to, amount).error == MathOverflow
  {
  }

  lemma SplitRefusal(amount: u64)
    ensures SplitAmounts(amount).Err? ==> SplitAmounts(amount).error == if amount == 0 then NoRewards else MathOverflow
  {
    SplitSucceedsExactly(amount);
  }

  lemma PumpSweepRefusal(s: State, mint: Pubkey, payer: Pubkey, collected: u64)
    ensures var swept := PumpSweep(s, mint, payer, collected);
      swept.Err? ==> match swept.error
        case SystemError =>
          || OwnerShort(s, mint) > Balance(s.lamports, Wallet(payer))
          || Balance(s.lamports, Launch(mint)) + OwnerSurplus(s, mint) + collected > U64_MAX
        case ForeignError =>
          || (collected > 0 && Balance(s.lamports, CreatorVault(mint)) < s.cfg.creatorFloor + collected)
          || Balance(s.lamports, FeeOwner(mint)) + OwnerShort(s, mint) + collected > U64_MAX
        case NoRewards => OwnerSurplus(s, mint) + collected == 0
        case _ => false
  {
    SweepPumpExactly(s, mint, payer, collected);
    ReadyExactly(s, mint, payer);
    hide TopUp, Move;
    var ready := TopUp(s.lamports, Wallet(payer), FeeOwner(mint), s.cfg.rentFloor);
    if ready.Ok? {
      MoveSucceedsExactly(ready.value, CreatorVault(mint), FeeOwner(mint), collected);
      if Move(ready.value, CreatorVault(mint), FeeOwner(mint), collected).Ok? {
        MoveConserves(ready.value, CreatorVault(mint), FeeOwner(mint), collected);
      }
    } else {
      TopUpRefusal(s.lamports, Wallet(payer), FeeOwner(mint), s.cfg.rentFloor);
    }
  }

  lemma TopUpRefusal(l: Balances, payer: Address, to: Address, floor: u64)
    ensures TopUp(l, payer, to, floor).Err? ==> TopUp(l, payer, to, floor).error == SystemError
  {
    hide Move;
  }

  lemma PumpSwapSweepRefusal(s: State, mint: Pubkey, collected: u64)
    ensures var swept := PumpSwapSweep(s, mint, collected);
      swept.Err? ==> match swept.error
        case InvalidTokenAccount => CoinCreatorAta(mint) !in s.wsol || FeeOwnerWsol(mint) !in s.wsol
        case NoRewards =>
          && FeeOwnerWsol(mint) in s.wsol
          && (s.wsol[FeeOwnerWsol(mint)] + collected == 0 || Balance(s.lamports, FeeOwnerWsol(mint)) + collected == 0)
        case ForeignError =>
          && CoinCreatorAta(mint) in s.wsol && FeeOwnerWsol(mint) in s.wsol
          && (|| s.wsol[CoinCreatorAta(mint)] < collected
              || s.wsol[FeeOwnerWsol(mint)] + collected > U64_MAX
              || (collected > 0 && Balance(s.lamports, CoinCreatorAta(mint)) < collected)
              || Balance(s.lamports, FeeOwnerWsol(mint)) + collected > U64_MAX)
        case TokenError => Balance(s.lamports, Launch(mint)) + Balance(s.lamports, FeeOwnerWsol(mint)) + collected > U64_MAX
        case _ => false
  {
    hide Move;
    var source, target := CoinCreatorAta(mint), FeeOwnerWsol(mint);
    MoveSucceedsExactly(s.lamports, source, target, collected);
    if Move(s.lamports, source, target, collected).Ok? {
      MoveConserves(s.lamports, source, target, collected);
      var gathered := Move(s.lamports, source, target, collected).value;
      MoveSucceedsExactly(gathered, target, Launch(mint), Balance(gathered, target));
    }
  }

  /** Routing blames the main reward pool for a missing account, and only where the list or the main launch is at fault. */
  lemma RouteRefusal(s: State, mint: Pubkey, payer: Pubkey, remaining: seq<Address>, amount: u64)
    requires mint in s.pools
    ensures var routed := RouteSwept(Swept(s, amount), mint, payer, remaining);
      routed.Err? ==>
        && routed.error != AccountMissing
        && (mint != s.cfg.mainMint && remaining == [] ==> routed.error == InvalidMainRewardPool)
        && (routed.error == InvalidMainRewardPool ==>
              && mint != s.cfg.mainMint
              && (remaining == [] || remaining[0] != Launch(s.cfg.mainMint) || s.cfg.mainMint !in s.pools))
  {
    SplitRefusal(amount);
    hide SplitAmounts, TopUp, Move;
    if SplitAmounts(amount).Ok? {
      var split := SplitAmounts(amount).value;
      TopUpRefusal(s.lamports, Wallet(payer), FeeVault(mint), s.cfg.rentFloor);
      var funded := if split.protocolFee > 0 then TopUp(s.lamports, Wallet(payer), FeeVault(mint), s.cfg.rentFloor) else Ok(s.lamports);
      if funded.Ok? {
        TransferRefusal(funded.value, Launch(mint), FeeVault(mint), split.protocolFee);
        if Move(funded.value, Launch(mint), FeeVault(mint), split.protocolFee).Ok? {
          TransferRefusal(Move(funded.value, Launch(mint), FeeVault(mint), split.protocolFee).value, Launch(mint),
                          Launch(s.cfg.mainMint), split.mainReward);
        }
      }
    }
  }

  /** A main coin's part that has nowhere to go is refused as such once everything before it went well. */
  lemma MainIsDemanded(s: State, mint: Pubkey, payer: Pubkey, remaining: seq<Address>, amount: u64)
    requires amount <= Balance(s.lamports, Launch(mint)) && 1 <= amount <= 7_378_697_629_483_820
    requires mint in s.pools && mint != s.cfg.mainMint
    requires VaultShort(s, mint, amount) <= Balance(s.lamports, Wallet(payer))
    requires Balance(s.lamports, FeeVault(mint)) + VaultShort(s, mint, amount) + FeePart(amount) <= U64_MAX
    requires BatchFits(s.pools[mint].launch, amount - FeePart(amount) - MainPart(amount))
    requires MainPart(amount) > 0 && (remaining != [] ==> remaining[0] != Launch(s.cfg.mainMint) || s.cfg.mainMint !in s.pools)
    ensures RouteSwept(Swept(s, amount), mint, payer, remaining) == Err(InvalidMainRewardPool)
  {
    PartsOfClaim(amount);
    FeeGoesExactly(s, mint, payer, amount);
    TwoBatches(s.pools, mint, s.cfg.mainMint, amount - FeePart(amount) - MainPart(amount), MainPart(amount));
    hide SplitAmounts, FeePart, MainPart, BatchFits, TopUp, Move, ApplyTo, VaultShort, Balance;
  }

  /** The codes of a fee claim for its launch, and for the account of the main coin. */
  lemma FeeClaimRefusal(s: State, ix: Instruction)
    requires IsFeeClaim(ix) && Attempt(s, ix).Err?
    ensures Attempt(s, ix).error == AccountMissing <==> ix.mint !in s.pools
    ensures ix.mint in s.pools && s.pools[ix.mint].launch.totalWeightedStake == 0 ==> Attempt(s, ix).error == NoActiveStake
    ensures Attempt(s, ix).error == InvalidMainRewardPool ==>
              && ix.mint != s.cfg.mainMint
              && (ix.remaining == [] || ix.remaining[0] != Launch(s.cfg.mainMint) || s.cfg.mainMint !in s.pools)
  {
    hide PumpSweep, PumpSwapSweep, RouteSwept;
    match ix
    case ClaimPumpFees(mint, payer, collected, remaining) =>
      PumpSweepRefusal(s, mint, payer, collected);
      SweepPumpExactly(s, mint, payer, collected);
      hide OwnerShort, OwnerSurplus, CanSweepPump;
      if mint in s.pools && PumpSweep(s, mint, payer, collected).Ok? {
        var out := PumpSweep(s, mint, payer, collected).value;
        assert out == Swept(out.state, out.amount);
        RouteRefusal(out.state, mint, payer, remaining, out.amount);
      }
    case ClaimPumpSwapFees(mint, payer, collected, remaining) =>
      PumpSwapSweepRefusal(s, mint, collected);
      SweepPumpSwapExactly(s, mint, collected);
      hide CanSweepPumpSwap;
      if mint in s.pools && PumpSwapSweep(s, mint, collected).Ok? {
        var out := PumpSwapSweep(s, mint, collected).value;
        assert out == Swept(out.state, out.amount);
        RouteRefusal(out.state, mint, payer, remaining, out.amount);
      }
  }

  // ---- Quote ----

  lemma SettleRefusal(q: QuotePool, p: Pool, o: Pubkey)
    requires QuoteStep(q, p, Settle(o)).Err?
    ensures match QuoteStep(q, p, Settle(o)).error
      case AccountMissing => o !in p.positions || o !in q.stakes
      case InsufficientRewardReserve => o in q.stakes && q.rewardReserve < SnapshotOwed(q, o)
      case TokenError => o in q.stakes && q.rewardVault < SnapshotOwed(q, o)
      case MathOverflow =>
        o in p.positions && o in q.stakes
        && (q.stakes[o].recordedWeight * q.accRewardPerWeight > U128_MAX
            || p.positions[o].weight * q.accRewardPerWeight > U128_MAX
            || !(0 <= SnapshotOwed(q, o) <= U64_MAX))
      case _ => false
  {
    if o in q.stakes {
      PendingRefusal(q.stakes[o].recordedWeight, q.stakes[o].rewardDebt, q.accRewardPerWeight);
      hide Pending;
    }
  }

  lemma EnrollRefusal(q: QuotePool, p: Pool, o: Pubkey)
    requires QuoteStep(q, p, Enroll(o)).Err?
    ensures match QuoteStep(q, p, Enroll(o)).error
      case AccountMissing => o !in p.positions
      case AccountInUse => o in q.stakes
      case MathOverflow => o in p.positions && p.positions[o].weight * q.accRewardPerWeight > U128_MAX
      case _ => false
  {
  }

  lemma QuoteBatchRefusal(q: QuotePool, p: Pool, collected: u64)
    requires QuoteStep(q, p, Batch(collected)).Err?
    ensures match QuoteStep(q, p, Batch(collected)).error
      case NoActiveStake => p.launch.totalWeightedStake == 0
      case ForeignError => q.feeOwnerAta + collected > U64_MAX
      case NoRewards => collected == 0 || (collected - collected / 4) * 1_000_000_000_000_000_000 < p.launch.totalWeightedStake
      case TokenError => q.rewardVault + collected - collected / 4 > U64_MAX || q.feeVault + collected / 4 > U64_MAX
      case MathOverflow =>
        || collected > 7_378_697_629_483_820
        || q.protocolFeeReserve + collected / 4 > U64_MAX
        || q.rewardReserve + collected - collected / 4 > U64_MAX
        || (p.launch.totalWeightedStake > 0
            && q.accRewardPerWeight
               + (collected - collected / 4) * 1_000_000_000_000_000_000 / p.launch.totalWeightedStake > U128_MAX)
      case _ => false
  {
    FeeIsQuarter(collected);
    if p.launch.totalWeightedStake > 0 && collected > 0 {
      RaiseIsZero(collected - collected / 4, p.launch.totalWeightedStake);
      assert Increment(collected - collected / 4, p.launch.totalWeightedStake)
          == (collected - collected / 4) * 1_000_000_000_000_000_000 / p.launch.totalWeightedStake;
    }
    hide ProtocolFee, Increment;
  }

  lemma RaiseIsZero(amount: nat, total: nat)
    requires total > 0
    ensures Increment(amount, total) == 0 <==> amount * 1_000_000_000_000_000_000 < total
  {
    DivBounds(amount * PRECISION, total);
    if Increment(amount, total) > 0 {
      MulMonotone(1, Increment(amount, total), total);
    }
  }
}
