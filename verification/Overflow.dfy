/**
 * When the product of a weight and the accumulator stops fitting 128 bits: how fast it can grow
 * while a position is held, what a staker can rely on when it joins, and what happens to a
 * position whose product no longer fits.
 */
module Overflow {
  import opened Arithmetic
  import opened Types
  import opened Rewards
  import opened Pool
  import opened Positions
  import opened History
  import opened Solvency
  import opened Accrual

  // ---- How fast the product grows ----

  /** A batch raises the product of a weight that takes part in it by at most PRECISION times the batch. */
  lemma BatchRaisesProduct(w: nat, acc: nat, amount: nat, total: nat)
    requires total > 0 && w <= total
    ensures w * (acc + Increment(amount, total)) <= w * acc + PRECISION * amount
  {
    IncrementSplitsBatch(amount, total);
    MulMonotone(w, total, Increment(amount, total));
    Distribute(w, acc, Increment(amount, total));
  }

  lemma AppliedSnoc(events: seq<Event>, e: Event)
    ensures Applied(events + [e]) == Applied(events) + e.amount
  {
    assert (events + [e])[..|events|] == events;
  }

  lemma StepRaisesProduct(s: Sim, input: Input, w: nat)
    requires Bookkept(s.pool) && (exists o :: o in s.pool.positions && s.pool.positions[o].weight == w)
    ensures var t := Next(s, input);
      w * t.pool.launch.accRewardPerWeight + PRECISION * Applied(s.books.events)
      <= w * s.pool.launch.accRewardPerWeight + PRECISION * Applied(t.books.events)
  {
    if input.Do? && input.op.Apply? {
      if Step(s.pool, input.op, s.clock).Ok? {
        var o :| o in s.pool.positions && s.pool.positions[o].weight == w;
        WeightAtMostTotal(s.pool.positions, o);
        BatchEffect(s, input.op.amount);
        AppliedSnoc(s.books.events, Event(input.op.amount, s.pool.launch.totalWeightedStake));
        BatchRaisesProduct(w, s.pool.launch.accRewardPerWeight, input.op.amount, s.pool.launch.totalWeightedStake);
        hide Next, Step, Increment;
      }
    } else if input.Do? {
      PayoutsMoveReserve(s, input.op);
      hide Next, Step;
    }
  }

  /**
   * While a position holds on, the product of its weight and the accumulator grows by at most
   * PRECISION times what is applied to the launch meanwhile, whatever was applied before it came
   * and whatever the others do.
   */
  lemma {:induction false} HeldProductGrows(s: Sim, inputs: seq<Input>, o: Pubkey)
    requires Sound(s) && o in s.pool.positions && AllHoldOn(s, inputs, o)
    ensures var t := Run(s, inputs);
      var w := s.pool.positions[o].weight;
      w * t.pool.launch.accRewardPerWeight + PRECISION * Applied(s.books.events)
      <= w * s.pool.launch.accRewardPerWeight + PRECISION * Applied(t.books.events)
    decreases |inputs|
  {
    hide Next, Sound, HoldsOn, Received, Applied;
    if inputs != [] {
      var front, last := inputs[..|inputs| - 1], inputs[|inputs| - 1];
      HeldProductGrows(s, front, o);
      HolderReceivesAccrual(s, front, o);
      RunPreserves(s, front);
      assert Bookkept(Run(s, front).pool) by { SoundIsBookkept(Run(s, front)); }
      hide Bookkept;
      StepRaisesProduct(Run(s, front), last, s.pool.positions[o].weight);
    }
  }

  lemma SoundIsBookkept(s: Sim)
    requires Sound(s)
    ensures Bookkept(s.pool)
  {
  }

  /**
   * What a staker can rely on from the moment it joins or claims: with room for `more` in its
   * product, nothing about its debt overflows until more than that has been applied to the launch.
   */
  lemma {:induction false} HeldProductFits(vault: u64, clock: i64, before: seq<Input>, inputs: seq<Input>, o: Pubkey, more: nat)
    requires o in Run(Initial(vault, clock), before).pool.positions
    requires AllHoldOn(Run(Initial(vault, clock), before), inputs, o)
    requires var s := Run(Initial(vault, clock), before);
      && s.pool.positions[o].weight * s.pool.launch.accRewardPerWeight + PRECISION * more <= U128_MAX
      && Applied(Run(s, inputs).books.events) <= Applied(s.books.events) + more
    ensures var s := Run(Initial(vault, clock), before);
      var w, acc := s.pool.positions[o].weight, Run(s, inputs).pool.launch.accRewardPerWeight;
      w * acc <= U128_MAX && RewardDebt(w, acc) == Ok(w * acc / PRECISION)
  {
    EveryRunIsSound(vault, clock, before);
    hide Sound, Applied, AllHoldOn, Initial, Run;
    HeldProductGrows(Run(Initial(vault, clock), before), inputs, o);
  }

  // ---- A position whose product does not fit ----

  ghost predicate TooLarge(p: Pool, o: Pubkey) {
    o in p.positions && p.positions[o].weight * p.launch.accRewardPerWeight > U128_MAX
  }

  predicate Settles(op: Op, o: Pubkey) {
    (op.Increase? || op.Claim? || op.Unstake?) && op.owner == o
  }

  /** No call that would settle it can succeed. */
  lemma TooLargeIsRefused(p: Pool, op: Op, now: i64, o: Pubkey)
    requires TooLarge(p, o) && Settles(op, o)
    ensures Step(p, op, now).Err?
  {
    hide Opened, PayRewards, TokensIn;
  }

  lemma AccumulatorStays(s: Sim, input: Input)
    ensures s.pool.launch.accRewardPerWeight <= Next(s, input).pool.launch.accRewardPerWeight
  {
    if input.Do? && !input.op.Apply? {
      PayoutsMoveReserve(s, input.op);
    } else if input.Do? && Step(s.pool, input.op, s.clock).Ok? {
      BatchEffect(s, input.op.amount);
    }
  }

  lemma TooLargeStays(s: Sim, input: Input, o: Pubkey)
    requires TooLarge(s.pool, o)
    ensures var t := Next(s, input); TooLarge(t.pool, o) && t.pool.positions[o] == s.pool.positions[o]
  {
    AccumulatorStays(s, input);
    if input.Do? && Settles(input.op, o) {
      TooLargeIsRefused(s.pool, input.op, s.clock, o);
      assert Next(s, input) == s;
    } else if input.Do? && input.op.Stake? && input.op.owner == o {
      assert Next(s, input) == s;
    } else {
      OthersLeavePosition(s, input, o);
      hide Next;
      MulMonotone(s.pool.launch.accRewardPerWeight, Next(s, input).pool.launch.accRewardPerWeight, s.pool.positions[o].weight);
    }
  }

  /**
   * Once the product of a position does not fit, it never will again: in every continuation the
   * position stays as it is, and no claim, increase or unstake of it ever succeeds.
   */
  lemma {:induction false} TooLargeIsForever(s: Sim, inputs: seq<Input>, o: Pubkey)
    requires TooLarge(s.pool, o)
    ensures var t := Run(s, inputs);
      && TooLarge(t.pool, o) && t.pool.positions[o] == s.pool.positions[o]
      && forall op: Op :: Settles(op, o) ==> Step(t.pool, op, t.clock).Err?
    decreases |inputs|
  {
    hide Next, Step, TooLarge;
    if inputs != [] {
      var front, last := inputs[..|inputs| - 1], inputs[|inputs| - 1];
      TooLargeIsForever(s, front, o);
      Held(Run(s, front).pool, o);
      TooLargeStays(Run(s, front), last, o);
    }
    Held(s.pool, o);
    var t := Run(s, inputs);
    Held(t.pool, o);
    forall op: Op | Settles(op, o)
      ensures Step(t.pool, op, t.clock).Err?
    {
      TooLargeIsRefused(t.pool, op, t.clock, o);
    }
  }

  lemma Held(p: Pool, o: Pubkey)
    requires TooLarge(p, o)
    ensures o in p.positions
  {
  }

  // ---- Such a position, from ordinary amounts ----

  const BATCH: u64 := 1_000_000_000
  const LARGE: u64 := 340_282_366_920

  const SMALL_STAKE := StakePosition(1, 1, 7 * DAY_SECONDS, 0)
  const LARGE_STAKE := StakePosition(LARGE, LARGE, 7 * DAY_SECONDS, LARGE * BATCH)

  const AFTER_SMALL := Pool(LaunchConfig(1, 0, 0), map[1 := SMALL_STAKE], 1)
  const AFTER_BATCH := Pool(LaunchConfig(1, BATCH * PRECISION, BATCH), map[1 := SMALL_STAKE], 1)
  const AFTER_LARGE := Pool(LaunchConfig(LARGE + 1, BATCH * PRECISION, BATCH), map[1 := SMALL_STAKE, 2 := LARGE_STAKE], LARGE + 1)

  /** One unit is staked, a batch arrives, and LARGE units are staked: each call is accepted. */
  lemma OrdinarySteps()
    ensures Step(Pool(EMPTY_LAUNCH, map[], 0), Stake(1, 1, 7, 1, true), 0) == Ok(Outcome(AFTER_SMALL, 0))
    ensures Step(AFTER_SMALL, Apply(BATCH), 0) == Ok(Outcome(AFTER_BATCH, 0))
    ensures Step(AFTER_BATCH, Stake(2, LARGE, 7, LARGE, true), 0) == Ok(Outcome(AFTER_LARGE, 0))
  {
    assert Opened(EMPTY_LAUNCH, 1, 10_000, 7 * DAY_SECONDS) == Ok(SMALL_STAKE);
    assert Increment(BATCH, 1) == BATCH * PRECISION;
    assert Opened(AFTER_BATCH.launch, LARGE, 10_000, 7 * DAY_SECONDS) == Ok(LARGE_STAKE);
  }

  /** The next batch of the same size is accepted too, and the second position's product no longer fits. */
  lemma LastStep()
    ensures Step(AFTER_LARGE, Apply(BATCH), 0).Ok?
    ensures var p := Step(AFTER_LARGE, Apply(BATCH), 0).value.pool;
      TooLarge(p, 2) && 2 in p.positions && p.positions[2] == LARGE_STAKE
    ensures Bringable(BATCH)
  {
    BringableExactly(BATCH);
    assert Increment(BATCH, LARGE + 1) == 2_938_735_877_055_187;
  }
}
