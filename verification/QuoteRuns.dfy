/** When the quote pool can pay what it owes: exactly, within a bound, and under which hypothesis. */
module QuoteRuns {
  import opened Arithmetic
  import opened Types
  import opened Sums
  import opened Rewards
  import opened Pool
  import opened Positions
  import opened History
  import opened Solvency
  import opened Quote

  // ---- Invariants of every run ----

  /** Every snapshot's debt is the rounded value of its recorded weight at some earlier accumulator. */
  ghost predicate QuoteDebts(w: World) {
    && w.books.checkpoints.Keys == w.quote.stakes.Keys
    && forall o :: o in w.quote.stakes ==>
         && w.books.checkpoints[o] <= w.quote.accRewardPerWeight
         && w.quote.stakes[o].rewardDebt == w.quote.stakes[o].recordedWeight * w.books.checkpoints[o] / PRECISION
  }

  /** The dust ledger of the quote pool, with what the batches did not credit on the right. */
  ghost predicate QuoteBalanced(w: World) {
    PRECISION * w.quote.rewardReserve + w.books.entryDust
      == Sum(QuoteCredits(w.quote.stakes, w.quote.accRewardPerWeight)) + w.books.exitDust + w.books.unclaimed
  }

  ghost predicate QuoteDustBounded(w: World) {
    w.books.entryDust <= (PRECISION - 1) * w.books.reopens
  }

  /** The token accounts behind the two reserves. */
  ghost predicate QuoteBacked(w: World) {
    && w.quote.rewardVault == w.quote.rewardReserve + w.books.outsideRewards
    && w.books.outsideRewards >= 0
    && w.quote.protocolFeeReserve <= w.quote.feeVault
    && w.books.swept + w.quote.feeVault == w.books.charged + w.books.outsideFees
  }

  ghost predicate QuoteSound(w: World) {
    QuoteDebts(w) && QuoteBalanced(w) && QuoteDustBounded(w) && QuoteBacked(w)
  }

  // ---- How the sums move ----

  lemma SetSnapshot(stakes: map<Pubkey, QuoteStake>, o: Pubkey, s: QuoteStake, acc: nat)
    ensures Sum(RecordedWeights(stakes[o := s])) == Sum(RecordedWeights(stakes)) - At(RecordedWeights(stakes), o) + s.recordedWeight
    ensures Sum(QuoteCredits(stakes[o := s], acc))
         == Sum(QuoteCredits(stakes, acc)) - At(QuoteCredits(stakes, acc), o) + Credit(s.recordedWeight, s.rewardDebt, acc)
  {
    assert RecordedWeights(stakes[o := s]) == RecordedWeights(stakes)[o := s.recordedWeight];
    assert QuoteCredits(stakes[o := s], acc) == QuoteCredits(stakes, acc)[o := Credit(s.recordedWeight, s.rewardDebt, acc)];
    SumUpdate(RecordedWeights(stakes), o, s.recordedWeight);
    SumUpdate(QuoteCredits(stakes, acc), o, Credit(s.recordedWeight, s.rewardDebt, acc));
  }

  lemma RaiseQuoteAccumulator(stakes: map<Pubkey, QuoteStake>, acc: nat, increment: nat)
    ensures Sum(QuoteCredits(stakes, acc + increment)) == Sum(QuoteCredits(stakes, acc)) + increment * Sum(RecordedWeights(stakes))
  {
    forall o | o in stakes
      ensures QuoteCredits(stakes, acc + increment)[o] == QuoteCredits(stakes, acc)[o] + increment * RecordedWeights(stakes)[o]
    {
      Distribute(stakes[o].recordedWeight, acc, increment);
    }
    SumLinear(QuoteCredits(stakes, acc), RecordedWeights(stakes), increment, QuoteCredits(stakes, acc + increment));
  }

  // ---- Preservation ----

  lemma SnapshotIsPayable(w: World, o: Pubkey)
    requires QuoteDebts(w) && o in w.quote.stakes
    ensures var s := w.quote.stakes[o];
      var acc := w.quote.accRewardPerWeight;
      && Credit(s.recordedWeight, s.rewardDebt, acc) >= 0
      && s.rewardDebt <= s.recordedWeight * acc / PRECISION
  {
    var s := w.quote.stakes[o];
    var acc := w.quote.accRewardPerWeight;
    DivBounds(s.recordedWeight * w.books.checkpoints[o], PRECISION);
    MulMonotone(w.books.checkpoints[o], acc, s.recordedWeight);
    DivMonotone(s.recordedWeight * w.books.checkpoints[o], s.recordedWeight * acc, PRECISION);
  }

  lemma SnapshotSettles(w: World, o: Pubkey)
    requires QuoteDebts(w) && o in w.quote.stakes
    ensures var s := w.quote.stakes[o];
      var acc := w.quote.accRewardPerWeight;
      var pending := Pending(s.recordedWeight, s.rewardDebt, acc);
      pending.Ok? ==> PRECISION * pending.value + Dust(s.recordedWeight, acc) == Credit(s.recordedWeight, s.rewardDebt, acc)
  {
    var s := w.quote.stakes[o];
    var acc := w.quote.accRewardPerWeight;
    SnapshotIsPayable(w, o);
    PendingIsWholeCredit(s.recordedWeight, s.rewardDebt, acc);
    DivBounds(Credit(s.recordedWeight, s.rewardDebt, acc), PRECISION);
  }

  /** `v` is `w` after `o`'s snapshot was settled, if it had one, and taken again at `weight`. */
  ghost predicate Retaken(w: World, v: World, o: Pubkey, weight: nat, paid: nat) {
    var acc := w.quote.accRewardPerWeight;
    && v.quote.accRewardPerWeight == acc
    && o in v.quote.stakes
    && v.quote.stakes == w.quote.stakes[o := v.quote.stakes[o]]
    && v.quote.stakes[o].recordedWeight == weight
    && v.quote.stakes[o].rewardDebt == weight * acc / PRECISION
    && v.quote.rewardReserve == w.quote.rewardReserve - paid
    && v.quote.rewardVault == w.quote.rewardVault - paid
    && v.quote.protocolFeeReserve == w.quote.protocolFeeReserve
    && v.quote.feeVault == w.quote.feeVault
    && v.books == RecordSnapshot(w.books, acc, o, RecordedOf(w.quote, o), weight)
  }

  lemma RetakingKeepsDebts(w: World, v: World, o: Pubkey, weight: nat, paid: nat)
    requires QuoteDebts(w) && QuoteBacked(w) && Retaken(w, v, o, weight, paid)
    ensures QuoteDebts(v) && QuoteBacked(v)
  {
    hide Dust;
  }

  lemma RetakingBalances(w: World, v: World, o: Pubkey, weight: nat, paid: nat)
    requires QuoteBalanced(w) && QuoteDustBounded(w) && Retaken(w, v, o, weight, paid)
    requires PRECISION * paid + Dust(RecordedOf(w.quote, o), w.quote.accRewardPerWeight)
          == At(QuoteCredits(w.quote.stakes, w.quote.accRewardPerWeight), o)
    requires Credit(weight, v.quote.stakes[o].rewardDebt, w.quote.accRewardPerWeight) == Dust(weight, w.quote.accRewardPerWeight)
    requires Dust(weight, w.quote.accRewardPerWeight) < PRECISION
    requires w.quote.accRewardPerWeight == 0 ==> Dust(weight, w.quote.accRewardPerWeight) == 0
    ensures QuoteBalanced(v) && QuoteDustBounded(v)
  {
    var acc := w.quote.accRewardPerWeight;
    SetSnapshot(w.quote.stakes, o, v.quote.stakes[o], acc);
    hide Dust, Credit, QuoteCredits, RecordedWeights;
  }

  lemma RetakenIsSettled(w: World, v: World, o: Pubkey, weight: nat, paid: nat)
    requires Retaken(w, v, o, weight, paid)
    ensures var acc := w.quote.accRewardPerWeight;
      && o in v.quote.stakes
      && Credit(weight, v.quote.stakes[o].rewardDebt, acc) == Dust(weight, acc)
      && Dust(weight, acc) < PRECISION
      && (acc == 0 ==> Dust(weight, acc) == 0)
  {
    SettledCredit(weight, w.quote.accRewardPerWeight);
    hide RecordSnapshot;
  }

  lemma RetakingKeepsSound(w: World, v: World, o: Pubkey, weight: nat, paid: nat)
    requires QuoteSound(w) && Retaken(w, v, o, weight, paid)
    requires PRECISION * paid + Dust(RecordedOf(w.quote, o), w.quote.accRewardPerWeight)
          == At(QuoteCredits(w.quote.stakes, w.quote.accRewardPerWeight), o)
    ensures QuoteSound(v)
  {
    hide QuoteDebts, QuoteBalanced, QuoteDustBounded, QuoteBacked;
    RetakenIsSettled(w, v, o, weight, paid);
    RetakingKeepsDebts(w, v, o, weight, paid);
    hide Retaken, Dust, Credit;
    RetakingBalances(w, v, o, weight, paid);
  }

  lemma EnrollKeepsSound(w: World, o: Pubkey)
    requires QuoteSound(w) && QuoteStep(w.quote, w.sim.pool, Enroll(o)).Ok?
    ensures QuoteSound(QuoteNext(w, OnQuote(Enroll(o))))
  {
    hide QuoteSound;
    RetakingKeepsSound(w, QuoteNext(w, OnQuote(Enroll(o))), o, w.sim.pool.positions[o].weight, 0);
  }

  lemma SettleKeepsSound(w: World, o: Pubkey)
    requires QuoteSound(w) && QuoteStep(w.quote, w.sim.pool, Settle(o)).Ok?
    ensures QuoteSound(QuoteNext(w, OnQuote(Settle(o))))
  {
    SnapshotSettles(w, o);
    hide QuoteSound, Pending;
    RetakingKeepsSound(w, QuoteNext(w, OnQuote(Settle(o))), o, w.sim.pool.positions[o].weight,
                       QuoteStep(w.quote, w.sim.pool, Settle(o)).value.paid);
  }

  /** A batch: the reserve and the reward vault take its post-fee amount, the fee vault its fee. */
  ghost predicate Batched(w: World, v: World, collected: u64) {
    var total := w.sim.pool.launch.totalWeightedStake;
    var fee := FeeOfBatch(collected);
    && total > 0 && fee <= collected
    && v.sim == w.sim
    && v.quote.stakes == w.quote.stakes
    && v.quote.accRewardPerWeight == w.quote.accRewardPerWeight + Increment(collected - fee, total)
    && v.quote.rewardReserve == w.quote.rewardReserve + collected - fee
    && v.quote.rewardVault == w.quote.rewardVault + collected - fee
    && v.quote.feeVault == w.quote.feeVault + fee
    && v.quote.protocolFeeReserve == w.quote.protocolFeeReserve + fee
    && v.books == RecordBatch(w.books, w.quote, total, collected)
  }

  lemma BatchIsBatched(w: World, collected: u64)
    requires QuoteStep(w.quote, w.sim.pool, Batch(collected)).Ok?
    ensures Batched(w, QuoteNext(w, OnQuote(Batch(collected))), collected)
  {
    QuoteFeeLeavesReward(collected);
    hide Increment;
  }

  lemma {:induction false} BatchKeepsSound(w: World, v: World, collected: u64)
    requires QuoteSound(w) && Batched(w, v, collected)
    ensures QuoteSound(v)
  {
    hide FeeOfBatch, Increment;
    RaiseQuoteAccumulator(w.quote.stakes, w.quote.accRewardPerWeight,
                          Increment(collected - FeeOfBatch(collected), w.sim.pool.launch.totalWeightedStake));
  }

  lemma SweepKeepsSound(w: World, op: QuoteOp)
    requires QuoteSound(w) && QuoteStep(w.quote, w.sim.pool, op).Ok?
    requires op.SweepFees? || op.DepositRewards? || op.DepositFees? || op.DepositAta?
    ensures QuoteSound(QuoteNext(w, OnQuote(op)))
  {
  }

  lemma {:induction false} NextKeepsQuoteSound(w: World, input: QuoteInput)
    requires QuoteSound(w)
    ensures QuoteSound(QuoteNext(w, input))
  {
    match input
    case OnLaunch(i) =>
      hide Next;
    case OnQuote(op) =>
      hide QuoteStep, QuoteSound;
      if QuoteStep(w.quote, w.sim.pool, op).Ok? {
        match op
        case Enroll(o) => EnrollKeepsSound(w, o);
        case Settle(o) => SettleKeepsSound(w, o);
        case Batch(collected) =>
          BatchIsBatched(w, collected);
          BatchKeepsSound(w, QuoteNext(w, OnQuote(op)), collected);
        case _ => SweepKeepsSound(w, op);
      }
  }

  lemma {:induction false} RunKeepsQuoteSound(w: World, inputs: seq<QuoteInput>)
    requires QuoteSound(w)
    ensures QuoteSound(QuoteRun(w, inputs))
    decreases |inputs|
  {
    hide QuoteSound, QuoteNext;
    if inputs != [] {
      RunKeepsQuoteSound(w, inputs[..|inputs| - 1]);
      NextKeepsQuoteSound(QuoteRun(w, inputs[..|inputs| - 1]), inputs[|inputs| - 1]);
    }
  }

  lemma CreatedIsSound(sim: Sim, rewardVault: u64, feeVault: u64, ata: u64)
    ensures QuoteSound(Created(sim, rewardVault, feeVault, ata))
  {
    assert QuoteCredits(map[], 0) == map[];
  }

  // ---- What follows ----

  /**
   * The two quote ledgers over every run: the reward vault holds the reserve plus outside
   * deposits; the fee reserve never exceeds its vault, so a sweep's saturating subtraction lands
   * on zero; and all fees ever charged, with outside deposits, were swept or are in the vault.
   */
  lemma {:induction false} QuoteLedgersBalance(sim: Sim, rewardVault: u64, feeVault: u64, ata: u64, inputs: seq<QuoteInput>)
    ensures var v := QuoteRun(Created(sim, rewardVault, feeVault, ata), inputs);
      && v.quote.rewardVault == v.quote.rewardReserve + v.books.outsideRewards
      && v.quote.protocolFeeReserve <= v.quote.feeVault
      && v.books.swept + v.quote.feeVault == v.books.charged + v.books.outsideFees
      && (SweepStep(v.quote).Ok? ==> SweepStep(v.quote).value.protocolFeeReserve == 0)
  {
    CreatedIsSound(sim, rewardVault, feeVault, ata);
    RunKeepsQuoteSound(Created(sim, rewardVault, feeVault, ata), inputs);
    hide QuoteRun, QuoteDebts, QuoteBalanced;
  }

  /** A snapshot can always be valued, even after its weight and the position's have parted. */
  lemma {:induction false} QuotePendingNeverUnderflows(sim: Sim, rewardVault: u64, feeVault: u64, ata: u64, inputs: seq<QuoteInput>, o: Pubkey)
    requires o in QuoteRun(Created(sim, rewardVault, feeVault, ata), inputs).quote.stakes
    ensures var q := QuoteRun(Created(sim, rewardVault, feeVault, ata), inputs).quote;
      q.stakes[o].rewardDebt <= q.stakes[o].recordedWeight * q.accRewardPerWeight / PRECISION
  {
    CreatedIsSound(sim, rewardVault, feeVault, ata);
    RunKeepsQuoteSound(Created(sim, rewardVault, feeVault, ata), inputs);
    SnapshotIsPayable(QuoteRun(Created(sim, rewardVault, feeVault, ata), inputs), o);
  }

  /** The quote pool's reserve covers the outstanding credit, fractions included, in exactly this case. */
  lemma {:induction false} QuoteCreditsCoveredExactly(sim: Sim, rewardVault: u64, feeVault: u64, ata: u64, inputs: seq<QuoteInput>)
    ensures var v := QuoteRun(Created(sim, rewardVault, feeVault, ata), inputs);
      Sum(QuoteCredits(v.quote.stakes, v.quote.accRewardPerWeight)) <= PRECISION * v.quote.rewardReserve
      <==> v.books.entryDust <= v.books.exitDust + v.books.unclaimed
  {
    CreatedIsSound(sim, rewardVault, feeVault, ata);
    RunKeepsQuoteSound(Created(sim, rewardVault, feeVault, ata), inputs);
    hide QuoteRun;
  }

  /** The fraction of a token of each snapshot that cannot be paid yet. */
  ghost function QuoteFractions(stakes: map<Pubkey, QuoteStake>, acc: nat): map<Pubkey, int> {
    map o | o in stakes :: stakes[o].recordedWeight * acc % PRECISION
  }

  lemma QuoteCreditsSplit(stakes: map<Pubkey, QuoteStake>, acc: nat)
    ensures Sum(QuoteCredits(stakes, acc)) == PRECISION * Sum(QuoteOwed(stakes, acc)) + Sum(QuoteFractions(stakes, acc))
  {
    forall o | o in stakes
      ensures QuoteCredits(stakes, acc)[o] == QuoteFractions(stakes, acc)[o] + PRECISION * QuoteOwed(stakes, acc)[o]
    {
      DivBounds(stakes[o].recordedWeight * acc, PRECISION);
    }
    SumLinear(QuoteFractions(stakes, acc), QuoteOwed(stakes, acc), PRECISION, QuoteCredits(stakes, acc));
  }

  lemma BalancedIsSolventExactly(w: World)
    requires QuoteBalanced(w)
    ensures var acc := w.quote.accRewardPerWeight;
      Sum(QuoteOwed(w.quote.stakes, acc)) <= w.quote.rewardReserve
      <==> w.books.entryDust <= w.books.exitDust + w.books.unclaimed + Sum(QuoteFractions(w.quote.stakes, acc))
  {
    QuoteCreditsSplit(w.quote.stakes, w.quote.accRewardPerWeight);
  }

  /** The exact solvency condition of a quote pool, in every run: it covers every token that could be claimed. */
  lemma {:induction false} QuoteSolventExactly(sim: Sim, rewardVault: u64, feeVault: u64, ata: u64, inputs: seq<QuoteInput>)
    ensures var v := QuoteRun(Created(sim, rewardVault, feeVault, ata), inputs);
      var acc := v.quote.accRewardPerWeight;
      Sum(QuoteOwed(v.quote.stakes, acc)) <= v.quote.rewardReserve
      <==> v.books.entryDust <= v.books.exitDust + v.books.unclaimed + Sum(QuoteFractions(v.quote.stakes, acc))
  {
    CreatedIsSound(sim, rewardVault, feeVault, ata);
    RunKeepsQuoteSound(Created(sim, rewardVault, feeVault, ata), inputs);
    hide QuoteRun;
    BalancedIsSolventExactly(QuoteRun(Created(sim, rewardVault, feeVault, ata), inputs));
  }

  /** A batch fits when the snapshots together claim no more weight than it is divided by. */
  ghost predicate Fits(e: QuoteEvent) {
    e.recorded <= e.total
  }

  ghost predicate AllFit(batches: seq<QuoteEvent>) {
    forall i :: 0 <= i < |batches| ==> Fits(batches[i])
  }

  /** A batch that fits credits no more than it brings. */
  lemma FittingBatchCreditsLess(amount: nat, total: nat, recorded: int)
    requires total > 0 && recorded <= total
    ensures Increment(amount, total) * recorded <= amount * PRECISION
  {
    IncrementSplitsBatch(amount, total);
    MulMonotone(recorded, total, Increment(amount, total));
  }

  /** For one batch, whatever the total: it overclaims exactly when the excess weight takes more than its undivided rest. */
  lemma BatchCreditsExactly(amount: nat, total: nat, recorded: int)
    requires total > 0
    ensures Increment(amount, total) * recorded <= amount * PRECISION
       <==> Increment(amount, total) * (recorded - total) <= amount * PRECISION % total
  {
    IncrementSplitsBatch(amount, total);
    Distribute(Increment(amount, total), recorded, 0 - total);
  }

  ghost predicate NoBatchOverclaims(total: nat, recorded: int)
    requires total > 0
  {
    forall amount: nat :: Bringable(amount) ==> Increment(amount, total) * recorded <= amount * PRECISION
  }

  /**
   * Fitting keeps every batch a claim can bring from crediting more than it brings. As long as some
   * claim can bring as much as the total weight, nothing weaker does; and whatever the total, the
   * largest batch overclaims once its increment on the excess weight comes to the total.
   */
  lemma FittingIsExact(total: nat, recorded: int)
    requires total > 0
    ensures recorded <= total ==> NoBatchOverclaims(total, recorded)
    ensures total <= MAX_BATCH ==> (NoBatchOverclaims(total, recorded) <==> recorded <= total)
    ensures Increment(MAX_BATCH, total) * (recorded - total) >= total ==> !NoBatchOverclaims(total, recorded)
  {
    if Increment(MAX_BATCH, total) * (recorded - total) >= total {
      BringableExactly(MAX_BATCH);
      DivBounds(MAX_BATCH * PRECISION, total);
      BatchCreditsExactly(MAX_BATCH, total, recorded);
    }
    if recorded <= total {
      forall amount: nat | Bringable(amount)
        ensures Increment(amount, total) * recorded <= amount * PRECISION
      {
        FittingBatchCreditsLess(amount, total, recorded);
      }
    } else if total <= MAX_BATCH {
      BringableExactly(total);
      DivUnique(total * PRECISION, total, PRECISION);
      assert Increment(total, total) * recorded > total * PRECISION;
    }
  }

  ghost predicate NothingOverclaimed(w: World) {
    AllFit(w.books.batches) ==> w.books.unclaimed >= 0
  }

  lemma NextOverclaimsNothing(w: World, input: QuoteInput)
    requires NothingOverclaimed(w)
    ensures NothingOverclaimed(QuoteNext(w, input))
  {
    if input.OnLaunch? {
      hide Next;
    } else if input.op.Batch? && QuoteStep(w.quote, w.sim.pool, input.op).Ok? {
      BatchIsBatched(w, input.op.collected);
      BatchOverclaimsNothing(w, QuoteNext(w, input), input.op.collected);
    } else {
      OtherQuoteSteps(w, input.op);
    }
  }

  lemma BatchOverclaimsNothing(w: World, v: World, collected: u64)
    requires NothingOverclaimed(w) && Batched(w, v, collected)
    ensures NothingOverclaimed(v)
  {
    hide FeeOfBatch, Increment;
    if AllFit(v.books.batches) {
      assert v.books.batches[..|v.books.batches| - 1] == w.books.batches;
      forall i | 0 <= i < |w.books.batches|
        ensures Fits(w.books.batches[i])
      {
        assert v.books.batches[i] == w.books.batches[i];
      }
      assert Fits(v.books.batches[|w.books.batches|]);
      var total := w.sim.pool.launch.totalWeightedStake;
      FittingBatchCreditsLess(collected - FeeOfBatch(collected), total, Sum(RecordedWeights(w.quote.stakes)));
    }
  }

  lemma OtherQuoteSteps(w: World, op: QuoteOp)
    requires !op.Batch? || QuoteStep(w.quote, w.sim.pool, op).Err?
    ensures QuoteNext(w, OnQuote(op)).books.batches == w.books.batches
    ensures QuoteNext(w, OnQuote(op)).books.unclaimed == w.books.unclaimed
  {
    hide QuoteStep;
  }

  lemma {:induction false} RunOverclaimsNothing(w: World, inputs: seq<QuoteInput>)
    requires NothingOverclaimed(w)
    ensures NothingOverclaimed(QuoteRun(w, inputs))
    decreases |inputs|
  {
    hide NothingOverclaimed, QuoteNext;
    if inputs != [] {
      RunOverclaimsNothing(w, inputs[..|inputs| - 1]);
      NextOverclaimsNothing(QuoteRun(w, inputs[..|inputs| - 1]), inputs[|inputs| - 1]);
    }
  }

  /** PRECISION times what all snapshots are owed is at most the sum of their credits. */
  lemma QuoteOwedWithinCredits(w: World)
    requires QuoteDebts(w)
    ensures PRECISION * Sum(QuoteOwed(w.quote.stakes, w.quote.accRewardPerWeight))
         <= Sum(QuoteCredits(w.quote.stakes, w.quote.accRewardPerWeight))
  {
    var stakes, acc := w.quote.stakes, w.quote.accRewardPerWeight;
    var zero: map<Pubkey, int> := map o | o in stakes :: 0;
    var scaled := map o | o in stakes :: PRECISION * QuoteOwed(stakes, acc)[o];
    forall o | o in stakes
      ensures 0 <= scaled[o] <= QuoteCredits(stakes, acc)[o]
    {
      SnapshotIsPayable(w, o);
      DivMinusMultiple(stakes[o].recordedWeight * acc, PRECISION, stakes[o].rewardDebt);
      DivBounds(Credit(stakes[o].recordedWeight, stakes[o].rewardDebt, acc), PRECISION);
    }
    SumLinear(zero, QuoteOwed(stakes, acc), PRECISION, scaled);
    SumConstantZero(zero);
    SumMonotone(scaled, QuoteCredits(stakes, acc));
  }

  /**
   * Conditional solvency: in every run whose batches all fit, each enrolment or re-weighting at
   * a non-zero accumulator leaves the pool short by less than one token, and nothing else does.
   */
  lemma {:induction false} QuoteBoundedSolvency(sim: Sim, rewardVault: u64, feeVault: u64, ata: u64, inputs: seq<QuoteInput>)
    requires AllFit(QuoteRun(Created(sim, rewardVault, feeVault, ata), inputs).books.batches)
    ensures var v := QuoteRun(Created(sim, rewardVault, feeVault, ata), inputs);
      var acc := v.quote.accRewardPerWeight;
      var owed := Sum(QuoteOwed(v.quote.stakes, acc));
      && Sum(QuoteCredits(v.quote.stakes, acc)) <= PRECISION * v.quote.rewardReserve + (PRECISION - 1) * v.books.reopens
      && (v.books.reopens == 0 ==> owed <= v.quote.rewardReserve)
      && (v.books.reopens > 0 ==> owed <= v.quote.rewardReserve + v.books.reopens - 1)
  {
    var w := Created(sim, rewardVault, feeVault, ata);
    CreatedIsSound(sim, rewardVault, feeVault, ata);
    RunKeepsQuoteSound(w, inputs);
    RunOverclaimsNothing(w, inputs);
    QuoteOwedWithinCredits(QuoteRun(w, inputs));
    hide QuoteRun;
  }
}
