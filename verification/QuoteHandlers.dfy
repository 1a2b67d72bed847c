/** The quote-token handlers, step by step, proved against the steps of module Quote. */
module QuoteHandlers {
  import opened Arithmetic
  import opened Types
  import opened Rewards
  import opened Quote
  import P = Pool

  /** One quote reward pool with its snapshots and token accounts. */
  class QuoteAccounts {
    var accRewardPerWeight: u128
    var rewardReserve: u64
    var protocolFeeReserve: u64
    var stakes: map<Pubkey, QuoteStake>
    var rewardVault: u64
    var feeVault: u64
    var feeOwnerAta: u64

    function View(): QuotePool
      reads this
    {
      QuotePool(accRewardPerWeight, rewardReserve, protocolFeeReserve, stakes, rewardVault, feeVault, feeOwnerAta)
    }

    /** `initialize_quote_rewards`, on token accounts that may already hold something. */
    constructor (rewardVault: u64, feeVault: u64, feeOwnerAta: u64)
      ensures View() == QuotePool(0, 0, 0, map[], rewardVault, feeVault, feeOwnerAta)
    {
      accRewardPerWeight, rewardReserve, protocolFeeReserve := 0, 0, 0;
      stakes := map[];
      this.rewardVault, this.feeVault, this.feeOwnerAta := rewardVault, feeVault, feeOwnerAta;
    }

    method ApplyRewards(total: u128, amount: u64) returns (r: Status)
      modifies this`accRewardPerWeight, this`rewardReserve
      ensures match ApplyQuoteRewards(old(View()), total, amount)
              case Ok(after) => r.Ok? && View() == after
              case Err(e) => r == Err(e)
      ensures r.Ok? ==>
                && PRECISION * amount - total < total * (accRewardPerWeight - old(accRewardPerWeight)) <= PRECISION * amount
                && rewardReserve == old(rewardReserve) + amount
    {
      if amount == 0 {
        return Err(NoRewards);
      }
      if total == 0 {
        return Err(NoActiveStake);
      }
      var product :- CheckedMul128(amount, PRECISION);
      var increment :- CheckedDiv128(product, total);
      if increment == 0 {
        return Err(NoRewards);
      }
      DivBounds(amount * PRECISION, total);
      accRewardPerWeight :- CheckedAdd128(accRewardPerWeight, increment);
      rewardReserve :- CheckedAdd64(rewardReserve, amount);
      return Ok(());
    }

    /** A quote fee claim: the Pump programs hand over `collected`, which is then split. */
    method ClaimFees(launch: P.LaunchConfig, collected: u64) returns (r: Status)
      modifies this
      ensures match BatchStep(old(View()), launch.totalWeightedStake, collected)
              case Ok(after) => r.Ok? && View() == after
              case Err(e) => r == Err(e)
    {
      hide ApplyQuoteRewards;
      if launch.totalWeightedStake == 0 {
        return Err(NoActiveStake);
      }
      var before := feeOwnerAta;
      if feeOwnerAta + collected > U64_MAX {
        return Err(ForeignError);
      }
      feeOwnerAta := feeOwnerAta + collected;
      var received :- CheckedSub64(feeOwnerAta, before);
      if received == 0 {
        return Err(NoRewards);
      }
      var fee :- ProtocolFee(received);
      QuoteFeeLeavesReward(received);
      var reward :- CheckedSub64(received, fee);
      if reward > 0 {
        rewardVault :- Held(rewardVault, reward);
        feeOwnerAta :- CheckedSub64(feeOwnerAta, reward);
      }
      if fee > 0 {
        feeVault :- Held(feeVault, fee);
        feeOwnerAta :- CheckedSub64(feeOwnerAta, fee);
        protocolFeeReserve :- CheckedAdd64(protocolFeeReserve, fee);
      }
      r := ApplyRewards(launch.totalWeightedStake, reward);
    }

    /** `initialize_quote_stake` for the position `p` of `owner`. */
    method EnrollHandler(pool: P.Pool, owner: Pubkey) returns (r: Status)
      modifies this`stakes
      ensures match EnrollStep(old(View()), pool, owner)
              case Ok(after) => r.Ok? && View() == after
              case Err(e) => r == Err(e)
      ensures r.Ok? ==>
                && owner in pool.positions && owner in stakes && owner !in old(stakes)
                && stakes[owner].recordedWeight == pool.positions[owner].weight
                && 0 <= Credit(stakes[owner].recordedWeight, stakes[owner].rewardDebt, accRewardPerWeight) < PRECISION
    {
      if owner !in pool.positions {
        return Err(AccountMissing);
      }
      if owner in stakes {
        return Err(AccountInUse);
      }
      var debt :- RewardDebt(pool.positions[owner].weight, accRewardPerWeight);
      SettledCredit(pool.positions[owner].weight, accRewardPerWeight);
      stakes := stakes[owner := QuoteStake(pool.positions[owner].weight, debt)];
      return Ok(());
    }

    /** `claim_quote_rewards_from_remaining`: pay at the recorded weight, then record the current one. */
    method ClaimHandler(pool: P.Pool, owner: Pubkey) returns (r: Result<u64>)
      modifies this
      ensures match SettleStep(old(View()), pool, owner)
              case Ok(out) => r == Ok(out.paid) && View() == out.quote
              case Err(e) => r == Err(e)
    {
      if owner !in pool.positions || owner !in stakes {
        return Err(AccountMissing);
      }
      var snapshot := stakes[owner];
      var pending :- Pending(snapshot.recordedWeight, snapshot.rewardDebt, accRewardPerWeight);
      if pending > 0 {
        if rewardReserve < pending {
          return Err(InsufficientRewardReserve);
        }
        rewardReserve :- CheckedSub64(rewardReserve, pending);
        if rewardVault < pending {
          return Err(TokenError);
        }
        rewardVault :- CheckedSub64(rewardVault, pending);
      }
      var debt :- RewardDebt(pool.positions[owner].weight, accRewardPerWeight);
      stakes := stakes[owner := QuoteStake(pool.positions[owner].weight, debt)];
      return Ok(pending);
    }

    /** `claim_quote_protocol_fees`: everything in the vault goes; the reserve is reduced, saturating. */
    method SweepHandler() returns (r: Result<u64>)
      modifies this`feeVault, this`protocolFeeReserve
      ensures match SweepStep(old(View()))
              case Ok(after) => r == Ok(old(feeVault)) && View() == after
              case Err(e) => r == Err(e)
      ensures r.Ok? ==> feeVault == 0 && protocolFeeReserve <= old(protocolFeeReserve)
      ensures r.Ok? && old(protocolFeeReserve) <= old(feeVault) ==> protocolFeeReserve == 0
    {
      var amount := feeVault;
      if amount == 0 {
        return Err(NoRewards);
      }
      feeVault := feeVault - amount;
      match CheckedSub64(protocolFeeReserve, amount) {
        case Ok(rest) => protocolFeeReserve := rest;
        case Err(_) => protocolFeeReserve := 0;
      }
      return Ok(amount);
    }

    method Dispatch(pool: P.Pool, op: QuoteOp) returns (r: Result<u64>)
      modifies this
      ensures match QuoteStep(old(View()), pool, op)
              case Ok(out) => r == Ok(out.paid) && View() == out.quote
              case Err(_) => r.Err?
    {
      hide EnrollStep, BatchStep, SettleStep;
      match op
      case Enroll(owner) =>
        var _ :- EnrollHandler(pool, owner);
        r := Ok(0);
      case Batch(collected) =>
        var _ :- ClaimFees(pool.launch, collected);
        r := Ok(0);
      case Settle(owner) => r := ClaimHandler(pool, owner);
      case SweepFees => r := SweepHandler();
      case DepositRewards(tokens) =>
        rewardVault :- Held(rewardVault, tokens);
        r := Ok(0);
      case DepositFees(tokens) =>
        feeVault :- Held(feeVault, tokens);
        r := Ok(0);
      case DepositAta(tokens) =>
        feeOwnerAta :- Held(feeOwnerAta, tokens);
        r := Ok(0);
    }

    /** One transaction on the pool of a launch in state `pool`; a failed one leaves no trace. */
    method Execute(pool: P.Pool, op: QuoteOp) returns (r: Result<u64>)
      modifies this
      ensures match QuoteStep(old(View()), pool, op)
              case Ok(out) => r == Ok(out.paid) && View() == out.quote
              case Err(_) => r.Err? && View() == old(View())
    {
      hide QuoteStep;
      var saved := View();
      r := Dispatch(pool, op);
      if r.Err? {
        accRewardPerWeight, rewardReserve, protocolFeeReserve := saved.accRewardPerWeight, saved.rewardReserve, saved.protocolFeeReserve;
        stakes, rewardVault, feeVault, feeOwnerAta := saved.stakes, saved.rewardVault, saved.feeVault, saved.feeOwnerAta;
      }
    }
  }
}
