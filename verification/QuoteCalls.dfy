/** Exactly when the quote transactions succeed, in every run, and what they then do. */
module QuoteCalls {
  import opened Arithmetic
  import opened Types
  import opened Rewards
  import opened Pool
  import opened History
  import opened Quote
  import opened QuoteRuns

  /** What a snapshot is owed, in whole tokens. */
  function SnapshotOwed(q: QuotePool, o: Pubkey): int
    requires o in q.stakes
  {
    q.stakes[o].recordedWeight * q.accRewardPerWeight / PRECISION - q.stakes[o].rewardDebt
  }

  lemma SettlePays(w: World, o: Pubkey)
    requires QuoteDebts(w) && o in w.quote.stakes
    ensures var s := w.quote.stakes[o];
      var pending := Pending(s.recordedWeight, s.rewardDebt, w.quote.accRewardPerWeight);
      && SnapshotOwed(w.quote, o) >= 0
      && (pending.Ok? <==> s.recordedWeight * w.quote.accRewardPerWeight <= U128_MAX && SnapshotOwed(w.quote, o) <= U64_MAX)
      && (pending.Ok? ==> pending.value == SnapshotOwed(w.quote, o))
  {
    SnapshotIsPayable(w, o);
    hide QuoteDebts;
  }

  lemma SettlesExactly(w: World, o: Pubkey)
    requires QuoteDebts(w) && QuoteBacked(w)
    ensures var q, p := w.quote, w.sim.pool;
      QuoteStep(q, p, Settle(o)).Ok? <==>
        && o in p.positions && o in q.stakes
        && q.stakes[o].recordedWeight * q.accRewardPerWeight <= U128_MAX
        && p.positions[o].weight * q.accRewardPerWeight <= U128_MAX
        && SnapshotOwed(q, o) <= q.rewardReserve
    ensures var q, p := w.quote, w.sim.pool;
      QuoteStep(q, p, Settle(o)).Ok? ==>
        var out := QuoteStep(q, p, Settle(o)).value;
        && o in p.positions && o in q.stakes && out.paid == SnapshotOwed(q, o) >= 0
        && out.quote == q.(rewardReserve := q.rewardReserve - out.paid, rewardVault := q.rewardVault - out.paid,
                           stakes := q.stakes[o := QuoteStake(p.positions[o].weight,
                                                              p.positions[o].weight * q.accRewardPerWeight / PRECISION)])
  {
    if o in w.quote.stakes {
      SettlePays(w, o);
      hide Pending, SnapshotOwed, QuoteDebts;
    }
  }

  /**
   * In every run a quote claim succeeds exactly when the owner has a position and a snapshot, both
   * debt products fit, and the reserve covers what is owed, which may be nothing: the vault then has
   * it. It pays what is owed, and records the position's weight with a debt at the accumulator.
   */
  lemma {:induction false} SettleSucceedsExactly(sim: Sim, rewardVault: u64, feeVault: u64, ata: u64, inputs: seq<QuoteInput>, o: Pubkey)
    ensures var w := QuoteRun(Created(sim, rewardVault, feeVault, ata), inputs);
      var q, p := w.quote, w.sim.pool;
      QuoteStep(q, p, Settle(o)).Ok? <==>
        && o in p.positions && o in q.stakes
        && q.stakes[o].recordedWeight * q.accRewardPerWeight <= U128_MAX
        && p.positions[o].weight * q.accRewardPerWeight <= U128_MAX
        && SnapshotOwed(q, o) <= q.rewardReserve
    ensures var w := QuoteRun(Created(sim, rewardVault, feeVault, ata), inputs);
      var q, p := w.quote, w.sim.pool;
      QuoteStep(q, p, Settle(o)).Ok? ==>
        var out := QuoteStep(q, p, Settle(o)).value;
        && o in p.positions && o in q.stakes && out.paid == SnapshotOwed(q, o) >= 0
        && out.quote == q.(rewardReserve := q.rewardReserve - out.paid, rewardVault := q.rewardVault - out.paid,
                           stakes := q.stakes[o := QuoteStake(p.positions[o].weight,
                                                              p.positions[o].weight * q.accRewardPerWeight / PRECISION)])
  {
    CreatedIsSound(sim, rewardVault, feeVault, ata);
    RunKeepsQuoteSound(Created(sim, rewardVault, feeVault, ata), inputs);
    SettlesExactly(QuoteRun(Created(sim, rewardVault, feeVault, ata), inputs), o);
    hide QuoteRun, Created, QuoteStep, SnapshotOwed;
  }

  /**
   * An owner is enrolled exactly when it has a position and no snapshot yet, and its debt product
   * fits; the snapshot records its weight with a debt at the accumulator.
   */
  lemma EnrollSucceedsExactly(q: QuotePool, p: Pool, o: Pubkey)
    ensures QuoteStep(q, p, Enroll(o)).Ok? <==>
      o in p.positions && o !in q.stakes && p.positions[o].weight * q.accRewardPerWeight <= U128_MAX
    ensures QuoteStep(q, p, Enroll(o)).Ok? ==>
              && o in p.positions
              && QuoteStep(q, p, Enroll(o)).value.quote
                 == q.(stakes := q.stakes[o := QuoteStake(p.positions[o].weight,
                                                          p.positions[o].weight * q.accRewardPerWeight / PRECISION)])
  {
  }

  /** Whether a batch moves the accumulator, and whether that fits. */
  predicate RaiseFits(acc: nat, total: nat, amount: nat) {
    && 0 < total <= amount * 1_000_000_000_000_000_000
    && acc + amount * 1_000_000_000_000_000_000 / total <= U128_MAX
  }

  lemma RaisesExactly(q: QuotePool, total: u128, amount: u64)
    requires amount > 0 && q.rewardReserve + amount <= U64_MAX
    ensures ApplyQuoteRewards(q, total, amount).Ok? <==> RaiseFits(q.accRewardPerWeight, total, amount)
    ensures ApplyQuoteRewards(q, total, amount).Ok? ==>
              ApplyQuoteRewards(q, total, amount).value
              == q.(accRewardPerWeight := q.accRewardPerWeight + amount * 1_000_000_000_000_000_000 / total,
                    rewardReserve := q.rewardReserve + amount)
  {
    if total > 0 {
      DivBounds(amount * PRECISION, total);
      if Increment(amount, total) > 0 {
        MulMonotone(1, Increment(amount, total), total);
      }
    }
  }

  lemma FeeIsQuarter(collected: u64)
    ensures ProtocolFee(collected).Ok? <==> collected <= 7_378_697_629_483_820
    ensures ProtocolFee(collected).Ok? ==> ProtocolFee(collected).value == collected / 4
  {
  }

  lemma CollectsExactly(w: World, collected: u64)
    requires QuoteBacked(w)
    ensures var q, total := w.quote, w.sim.pool.launch.totalWeightedStake;
      var fee := collected / 4;
      QuoteStep(q, w.sim.pool, Batch(collected)).Ok? <==>
        && 1 <= collected <= 7_378_697_629_483_820
        && q.feeOwnerAta + collected <= U64_MAX
        && q.rewardVault + collected - fee <= U64_MAX
        && q.feeVault + fee <= U64_MAX
        && RaiseFits(q.accRewardPerWeight, total, collected - fee)
    ensures var q, total := w.quote, w.sim.pool.launch.totalWeightedStake;
      var fee := collected / 4;
      QuoteStep(q, w.sim.pool, Batch(collected)).Ok? ==>
        && total > 0
        && QuoteStep(q, w.sim.pool, Batch(collected)).value.quote
           == q.(accRewardPerWeight := q.accRewardPerWeight + (collected - fee) * 1_000_000_000_000_000_000 / total,
                 rewardReserve := q.rewardReserve + collected - fee, rewardVault := q.rewardVault + collected - fee,
                 feeVault := q.feeVault + fee, protocolFeeReserve := q.protocolFeeReserve + fee)
  {
    var q, total := w.quote, w.sim.pool.launch.totalWeightedStake;
    FeeIsQuarter(collected);
    var fee := collected / 4;
    hide ProtocolFee, ApplyQuoteRewards, RaiseFits;
    if 1 <= collected <= 7_378_697_629_483_820 && q.rewardVault + collected - fee <= U64_MAX && q.feeVault + fee <= U64_MAX {
      RaisesExactly(q.(rewardVault := q.rewardVault + collected - fee, feeVault := q.feeVault + fee,
                       protocolFeeReserve := q.protocolFeeReserve + fee), total, collected - fee);
    }
    RaiseNeedsWeight(q.accRewardPerWeight, total, collected - fee);
  }

  lemma RaiseNeedsWeight(acc: nat, total: nat, amount: nat)
    ensures RaiseFits(acc, total, amount) ==> total > 0
  {
  }

  /**
   * In every run a quote fee claim succeeds exactly when it collects between 1 and the most whose
   * fee fits, the three token accounts can hold their amounts, and what the fee leaves moves the
   * accumulator, which has to fit; both reserves then fit by themselves.
   */
  lemma {:induction false} BatchSucceedsExactly(sim: Sim, rewardVault: u64, feeVault: u64, ata: u64, inputs: seq<QuoteInput>, collected: u64)
    ensures var w := QuoteRun(Created(sim, rewardVault, feeVault, ata), inputs);
      var q, total := w.quote, w.sim.pool.launch.totalWeightedStake;
      var fee := collected / 4;
      QuoteStep(q, w.sim.pool, Batch(collected)).Ok? <==>
        && 1 <= collected <= 7_378_697_629_483_820
        && q.feeOwnerAta + collected <= U64_MAX
        && q.rewardVault + collected - fee <= U64_MAX
        && q.feeVault + fee <= U64_MAX
        && RaiseFits(q.accRewardPerWeight, total, collected - fee)
    ensures var w := QuoteRun(Created(sim, rewardVault, feeVault, ata), inputs);
      var q, total := w.quote, w.sim.pool.launch.totalWeightedStake;
      var fee := collected / 4;
      QuoteStep(q, w.sim.pool, Batch(collected)).Ok? ==>
        && total > 0
        && QuoteStep(q, w.sim.pool, Batch(collected)).value.quote
           == q.(accRewardPerWeight := q.accRewardPerWeight + (collected - fee) * 1_000_000_000_000_000_000 / total,
                 rewardReserve := q.rewardReserve + collected - fee, rewardVault := q.rewardVault + collected - fee,
                 feeVault := q.feeVault + fee, protocolFeeReserve := q.protocolFeeReserve + fee)
  {
    CreatedIsSound(sim, rewardVault, feeVault, ata);
    RunKeepsQuoteSound(Created(sim, rewardVault, feeVault, ata), inputs);
    CollectsExactly(QuoteRun(Created(sim, rewardVault, feeVault, ata), inputs), collected);
    hide QuoteRun, Created, QuoteStep, RaiseFits;
  }

  lemma SweepsExactly(w: World)
    requires QuoteBacked(w)
    ensures QuoteStep(w.quote, w.sim.pool, SweepFees).Ok? <==> w.quote.feeVault > 0
    ensures QuoteStep(w.quote, w.sim.pool, SweepFees).Ok? ==>
              QuoteStep(w.quote, w.sim.pool, SweepFees).value
              == QuoteOutcome(w.quote.(feeVault := 0, protocolFeeReserve := 0), w.quote.feeVault)
  {
  }

  /** In every run the protocol's sweep succeeds exactly when its vault holds something; both then are at zero. */
  lemma {:induction false} SweepSucceedsExactly(sim: Sim, rewardVault: u64, feeVault: u64, ata: u64, inputs: seq<QuoteInput>)
    ensures var w := QuoteRun(Created(sim, rewardVault, feeVault, ata), inputs);
      && (QuoteStep(w.quote, w.sim.pool, SweepFees).Ok? <==> w.quote.feeVault > 0)
      && (QuoteStep(w.quote, w.sim.pool, SweepFees).Ok? ==>
            QuoteStep(w.quote, w.sim.pool, SweepFees).value
            == QuoteOutcome(w.quote.(feeVault := 0, protocolFeeReserve := 0), w.quote.feeVault))
  {
    CreatedIsSound(sim, rewardVault, feeVault, ata);
    RunKeepsQuoteSound(Created(sim, rewardVault, feeVault, ata), inputs);
    SweepsExactly(QuoteRun(Created(sim, rewardVault, feeVault, ata), inputs));
    hide QuoteRun, Created, QuoteStep;
  }

  /** Deposits by outsiders arrive when they fit. */
  lemma DepositsSucceedExactly(q: QuotePool, p: Pool, tokens: u64)
    ensures QuoteStep(q, p, DepositRewards(tokens)).Ok? <==> q.rewardVault + tokens <= U64_MAX
    ensures QuoteStep(q, p, DepositFees(tokens)).Ok? <==> q.feeVault + tokens <= U64_MAX
    ensures QuoteStep(q, p, DepositAta(tokens)).Ok? <==> q.feeOwnerAta + tokens <= U64_MAX
  {
  }
}
