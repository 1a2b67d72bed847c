/** Runs that meet the hypothesis of the quote pool's solvency, and one that does not. */
module QuoteHypothesis {
  import opened Types
  import opened Sums
  import opened Rewards
  import opened Pool
  import opened History
  import opened Solvency
  import opened Accrual
  import opened Quote
  import opened QuoteRuns

  /** No unstake and no increase of an enrolled owner succeeds; what anybody else does is free. */
  predicate Steady(w: World, input: QuoteInput) {
    input.OnLaunch? && input.input.Do? && (input.input.op.Unstake? || input.input.op.Increase?)
    && Step(w.sim.pool, input.input.op, w.sim.clock).Ok?
    ==> input.input.op.owner !in w.quote.stakes
  }

  ghost predicate AllSteady(w: World, inputs: seq<QuoteInput>)
    decreases |inputs|
  {
    inputs != [] ==>
      && AllSteady(w, inputs[..|inputs| - 1])
      && Steady(QuoteRun(w, inputs[..|inputs| - 1]), inputs[|inputs| - 1])
  }

  /** Every snapshot still agrees with its position. */
  ghost predicate Aligned(w: World) {
    forall o :: o in w.quote.stakes ==>
      && o in w.sim.pool.positions
      && w.quote.stakes[o].recordedWeight == w.sim.pool.positions[o].weight
  }

  /** What the hypothesis needs: a sound launch, agreeing snapshots, and batches that fitted so far. */
  ghost predicate InOrder(w: World) {
    Sound(w.sim) && Aligned(w) && AllFit(w.books.batches)
  }

  /** Agreeing snapshots together record no more than the launch's total weight. */
  lemma AlignedFitsTotal(w: World)
    requires Bookkept(w.sim.pool) && Aligned(w)
    ensures Sum(RecordedWeights(w.quote.stakes)) <= w.sim.pool.launch.totalWeightedStake
  {
    SumMonotone(RecordedWeights(w.quote.stakes), Weights(w.sim.pool.positions));
  }

  lemma LaunchStepKeepsOthers(s: Sim, input: Input, o: Pubkey)
    requires o in s.pool.positions
    requires input.Do? && (input.op.Unstake? || input.op.Increase?) && Step(s.pool, input.op, s.clock).Ok?
             ==> input.op.owner != o
    ensures o in Next(s, input).pool.positions
    ensures Next(s, input).pool.positions[o].weight == s.pool.positions[o].weight
  {
    if input.Do? && Step(s.pool, input.op, s.clock).Err? {
      assert Next(s, input) == s;
    } else if input.Do? && input.op.Claim? && input.op.owner == o {
      hide Pending;
    } else {
      OthersLeavePosition(s, input, o);
    }
  }

  lemma LaunchStepStaysInOrder(w: World, input: Input)
    requires InOrder(w) && Steady(w, OnLaunch(input))
    ensures InOrder(QuoteNext(w, OnLaunch(input)))
  {
    hide Sound, Next;
    NextPreserves(w.sim, input);
    forall o | o in w.quote.stakes
      ensures o in Next(w.sim, input).pool.positions
      ensures Next(w.sim, input).pool.positions[o].weight == w.quote.stakes[o].recordedWeight
    {
      LaunchStepKeepsOthers(w.sim, input, o);
    }
  }

  lemma BatchStaysInOrder(w: World, v: World, collected: u64)
    requires InOrder(w) && Batched(w, v, collected)
    ensures InOrder(v)
  {
    AlignedFitsTotal(w);
    hide Sound, FeeOfBatch, Increment;
    var es := v.books.batches;
    forall i | 0 <= i < |es|
      ensures Fits(es[i])
    {
      if i < |w.books.batches| {
        assert es[i] == w.books.batches[i];
      }
    }
  }

  lemma QuoteStepStaysInOrder(w: World, op: QuoteOp)
    requires InOrder(w)
    ensures InOrder(QuoteNext(w, OnQuote(op)))
  {
    if QuoteStep(w.quote, w.sim.pool, op).Ok? {
      if op.Batch? {
        BatchIsBatched(w, op.collected);
        BatchStaysInOrder(w, QuoteNext(w, OnQuote(op)), op.collected);
      } else {
        hide Sound, Pending;
      }
    }
  }

  lemma {:induction false} SteadyRunStaysInOrder(w: World, inputs: seq<QuoteInput>)
    requires InOrder(w) && AllSteady(w, inputs)
    ensures InOrder(QuoteRun(w, inputs))
    decreases |inputs|
  {
    hide InOrder, QuoteNext, Steady;
    if inputs != [] {
      var front, last := inputs[..|inputs| - 1], inputs[|inputs| - 1];
      SteadyRunStaysInOrder(w, front);
      match last
      case OnLaunch(input) => LaunchStepStaysInOrder(QuoteRun(w, front), input);
      case OnQuote(op) => QuoteStepStaysInOrder(QuoteRun(w, front), op);
    }
  }

  /**
   * Whenever enrolled owners neither unstake nor increase, every batch fits, whatever stakers
   * who are not enrolled do: so such runs are solvent within the bound of QuoteBoundedSolvency.
   */
  lemma {:induction false} SteadyRunsFit(vault: u64, clock: i64, before: seq<Input>, rewardVault: u64, feeVault: u64, ata: u64,
                      inputs: seq<QuoteInput>)
    requires AllSteady(Created(Run(Initial(vault, clock), before), rewardVault, feeVault, ata), inputs)
    ensures AllFit(QuoteRun(Created(Run(Initial(vault, clock), before), rewardVault, feeVault, ata), inputs).books.batches)
  {
    EveryRunIsSound(vault, clock, before);
    var w := Created(Run(Initial(vault, clock), before), rewardVault, feeVault, ata);
    assert InOrder(w) by { hide Sound, Run; }
    hide InOrder, AllSteady, QuoteRun, Created, Run, Initial;
    SteadyRunStaysInOrder(w, inputs);
    InOrderFits(QuoteRun(w, inputs));
  }

  lemma InOrderFits(w: World)
    requires InOrder(w)
    ensures AllFit(w.books.batches)
  {
  }

  // ---- The hypothesis cannot be dropped ----

  lemma QuoteSnoc(w: World, xs: seq<QuoteInput>, x: QuoteInput)
    ensures QuoteRun(w, xs + [x]) == QuoteNext(QuoteRun(w, xs), x)
  {
    assert (xs + [x])[..|xs|] == xs;
  }

  function Holder(amount: u64): StakePosition {
    StakePosition(amount, amount, 7 * DAY_SECONDS, 0)
  }

  /** Two stakers, one of them enrolled; the enrolled one leaves after its week, and one token arrives. */
  function LeavingRun(): seq<QuoteInput> {
    [OnLaunch(Do(Stake(0, 2, 7, 2, true)))] + [OnLaunch(Do(Stake(1, 1, 7, 1, true)))] + [OnQuote(Enroll(0))]
    + [OnLaunch(Tick(7 * DAY_SECONDS))] + [OnLaunch(Do(Unstake(0)))] + [OnQuote(Batch(1))]
  }

  lemma EnrolledWorld(w: World)
    requires w == Created(Initial(0, 0), 0, 0, 0)
    ensures var v := QuoteNext(QuoteNext(QuoteNext(w, OnLaunch(Do(Stake(0, 2, 7, 2, true)))),
                                         OnLaunch(Do(Stake(1, 1, 7, 1, true)))), OnQuote(Enroll(0)));
      && v.sim.pool == Pool(LaunchConfig(3, 0, 0), map[0 := Holder(2), 1 := Holder(1)], 3)
      && v.sim.clock == 0
      && v.quote == QuotePool(0, 0, 0, map[0 := QuoteStake(2, 0)], 0, 0, 0)
      && v.books.reopens == 0
  {
    var w1 := QuoteNext(w, OnLaunch(Do(Stake(0, 2, 7, 2, true))));
    assert w1.sim.pool == Pool(LaunchConfig(2, 0, 0), map[0 := Holder(2)], 2);
    var w2 := QuoteNext(w1, OnLaunch(Do(Stake(1, 1, 7, 1, true))));
    assert w2.sim.pool.positions == map[0 := Holder(2), 1 := Holder(1)];
    assert w2.quote == w.quote && w2.books == w.books;
    EnrollsAtZero(w2);
  }

  lemma EnrollsAtZero(w: World)
    requires w.quote == QuotePool(0, 0, 0, map[], 0, 0, 0) && w.books.reopens == 0
    requires 0 in w.sim.pool.positions && w.sim.pool.positions[0] == Holder(2)
    ensures var v := QuoteNext(w, OnQuote(Enroll(0)));
      v.sim == w.sim && v.quote == QuotePool(0, 0, 0, map[0 := QuoteStake(2, 0)], 0, 0, 0) && v.books.reopens == 0
  {
  }

  lemma LeaverIsOverpaid(w: World)
    requires w.sim.pool == Pool(LaunchConfig(3, 0, 0), map[0 := Holder(2), 1 := Holder(1)], 3)
    requires w.sim.clock == 0 && w.quote == QuotePool(0, 0, 0, map[0 := QuoteStake(2, 0)], 0, 0, 0) && w.books.reopens == 0
    ensures var v := QuoteNext(QuoteNext(QuoteNext(w, OnLaunch(Tick(7 * DAY_SECONDS))), OnLaunch(Do(Unstake(0)))),
                               OnQuote(Batch(1)));
      && v.quote.accRewardPerWeight == PRECISION && v.quote.rewardReserve == 1
      && v.quote.stakes == map[0 := QuoteStake(2, 0)] && v.books.reopens == 0
  {
    var w1 := QuoteNext(w, OnLaunch(Tick(7 * DAY_SECONDS)));
    assert w1.sim.pool == w.sim.pool && w1.sim.clock == 7 * DAY_SECONDS;
    var w2 := QuoteNext(w1, OnLaunch(Do(Unstake(0))));
    assert w2.sim.pool.launch == LaunchConfig(1, 0, 0);
    assert w2.quote == w.quote && w2.books == w.books;
    BatchOfOne(w2);
  }

  lemma BatchOfOne(w: World)
    requires w.sim.pool.launch == LaunchConfig(1, 0, 0)
    requires w.quote == QuotePool(0, 0, 0, map[0 := QuoteStake(2, 0)], 0, 0, 0) && w.books.reopens == 0
    ensures var v := QuoteNext(w, OnQuote(Batch(1)));
      && v.quote.accRewardPerWeight == PRECISION && v.quote.rewardReserve == 1
      && v.quote.stakes == map[0 := QuoteStake(2, 0)] && v.books.reopens == 0
  {
    assert ProtocolFee(1) == Ok(0);
    assert Increment(1, 1) == PRECISION;
    hide RecordedWeights;
  }

  /**
   * Without the hypothesis the bound fails: at the end of LeavingRun nobody was re-weighted at
   * a non-zero accumulator, and yet two tokens are owed out of a reserve of one.
   */
  lemma HypothesisIsNeeded()
    ensures var v := QuoteRun(Created(Initial(0, 0), 0, 0, 0), LeavingRun());
      && v.books.reopens == 0
      && Sum(QuoteOwed(v.quote.stakes, v.quote.accRewardPerWeight)) == 2
      && v.quote.rewardReserve == 1
  {
    hide QuoteNext, QuoteRun, Created, Initial, QuoteOwed, Sum;
    var w := Created(Initial(0, 0), 0, 0, 0);
    RunOfSix(w, OnLaunch(Do(Stake(0, 2, 7, 2, true))), OnLaunch(Do(Stake(1, 1, 7, 1, true))), OnQuote(Enroll(0)),
             OnLaunch(Tick(7 * DAY_SECONDS)), OnLaunch(Do(Unstake(0))), OnQuote(Batch(1)));
    EnrolledWorld(w);
    LeaverIsOverpaid(QuoteNext(QuoteNext(QuoteNext(w, OnLaunch(Do(Stake(0, 2, 7, 2, true)))),
                                         OnLaunch(Do(Stake(1, 1, 7, 1, true)))), OnQuote(Enroll(0))));
    TwoAreOwed();
  }

  lemma TwoAreOwed()
    ensures Sum(QuoteOwed(map[0 := QuoteStake(2, 0)], PRECISION)) == 2
  {
    var none: map<Pubkey, int> := map[];
    SumUpdate(none, 0, 2);
    assert QuoteOwed(map[0 := QuoteStake(2, 0)], PRECISION) == none[0 := 2];
  }

  lemma RunOfSix(w: World, a: QuoteInput, b: QuoteInput, c: QuoteInput, d: QuoteInput, e: QuoteInput, f: QuoteInput)
    ensures QuoteRun(w, [a] + [b] + [c] + [d] + [e] + [f])
         == QuoteNext(QuoteNext(QuoteNext(QuoteNext(QuoteNext(QuoteNext(w, a), b), c), d), e), f)
  {
    hide QuoteNext;
    QuoteSnoc(w, [], a);
    assert [] + [a] == [a];
    QuoteSnoc(w, [a], b);
    QuoteSnoc(w, [a] + [b], c);
    QuoteSnoc(w, [a] + [b] + [c], d);
    QuoteSnoc(w, [a] + [b] + [c] + [d], e);
    QuoteSnoc(w, [a] + [b] + [c] + [d] + [e], f);
  }
}
