/**
 * The accumulator against the history of batches: its exact value, why debt products fit
 * their machine width, and how close every position comes to its exact pro-rata share.
 */
module Accrual {
  import opened Arithmetic
  import opened Types
  import opened Rewards
  import opened Pool
  import opened History
  import opened Solvency

  ghost function Applied(events: seq<Event>): nat {
    if events == [] then 0 else Applied(events[..|events| - 1]) + events[|events| - 1].amount
  }

  ghost predicate RealBatches(events: seq<Event>) {
    forall i :: 0 <= i < |events| ==> events[i].total > 0
  }

  ghost function Accumulated(events: seq<Event>): nat
    requires RealBatches(events)
  {
    if events == [] then 0
    else
      var last := events[|events| - 1];
      Accumulated(events[..|events| - 1]) + Increment(last.amount, last.total)
  }

  /** The two stored totals are those of the batch history: accumulator and reserve. */
  ghost predicate HistoryKept(s: Sim) {
    && RealBatches(s.books.events)
    && s.pool.launch.accRewardPerWeight == Accumulated(s.books.events)
    && s.pool.launch.rewardReserve + s.books.paid == Applied(s.books.events)
  }

  lemma AppendEvent(events: seq<Event>, e: Event)
    requires RealBatches(events) && e.total > 0
    ensures RealBatches(events + [e])
    ensures Accumulated(events + [e]) == Accumulated(events) + Increment(e.amount, e.total)
    ensures Applied(events + [e]) == Applied(events) + e.amount
  {
    assert (events + [e])[..|events|] == events;
  }

  lemma BatchEffect(s: Sim, amount: u64)
    requires Step(s.pool, Apply(amount), s.clock).Ok?
    ensures var t := Next(s, Do(Apply(amount))); var total := s.pool.launch.totalWeightedStake;
      && total > 0
      && t.books.events == s.books.events + [Event(amount, total)]
      && t.books.paid == s.books.paid
      && t.pool.launch.accRewardPerWeight == s.pool.launch.accRewardPerWeight + Increment(amount, total)
      && t.pool.launch.rewardReserve == s.pool.launch.rewardReserve + amount
  {
  }

  lemma BatchKeepsHistory(s: Sim, amount: u64)
    requires HistoryKept(s)
    ensures HistoryKept(Next(s, Do(Apply(amount))))
    ensures s.books.events <= Next(s, Do(Apply(amount))).books.events
    ensures s.pool.launch.accRewardPerWeight <= Next(s, Do(Apply(amount))).pool.launch.accRewardPerWeight
  {
    if Step(s.pool, Apply(amount), s.clock).Ok? {
      BatchEffect(s, amount);
      AppendEvent(s.books.events, Event(amount, s.pool.launch.totalWeightedStake));
    }
  }

  /** Apart from batches, a step only moves lamports from the reserve to the paid total. */
  lemma PayoutsMoveReserve(s: Sim, op: Op)
    requires !op.Apply?
    ensures var t := Next(s, Do(op));
      && t.books.events == s.books.events
      && t.pool.launch.accRewardPerWeight == s.pool.launch.accRewardPerWeight
      && t.pool.launch.rewardReserve + t.books.paid == s.pool.launch.rewardReserve + s.books.paid
  {
  }

  lemma {:induction false} NextKeepsHistory(s: Sim, input: Input)
    requires HistoryKept(s)
    ensures HistoryKept(Next(s, input))
    ensures s.books.events <= Next(s, input).books.events
    ensures s.pool.launch.accRewardPerWeight <= Next(s, input).pool.launch.accRewardPerWeight
  {
    if input.Do? && input.op.Apply? {
      BatchKeepsHistory(s, input.op.amount);
    } else if input.Do? {
      PayoutsMoveReserve(s, input.op);
    }
  }

  lemma {:induction false} RunKeepsHistory(s: Sim, inputs: seq<Input>)
    requires HistoryKept(s)
    ensures HistoryKept(Run(s, inputs))
    ensures s.books.events <= Run(s, inputs).books.events
    ensures s.pool.launch.accRewardPerWeight <= Run(s, inputs).pool.launch.accRewardPerWeight
    decreases |inputs|
  {
    if inputs != [] {
      RunKeepsHistory(s, inputs[..|inputs| - 1]);
      NextKeepsHistory(Run(s, inputs[..|inputs| - 1]), inputs[|inputs| - 1]);
    }
  }

  /**
   * In every run the accumulator is the sum of the increments of the batches received, and
   * the reserve is everything ever applied less everything ever paid.
   */
  lemma {:induction false} EveryRunKeepsHistory(vault: u64, clock: i64, inputs: seq<Input>)
    ensures HistoryKept(Run(Initial(vault, clock), inputs))
  {
    RunKeepsHistory(Initial(vault, clock), inputs);
  }

  /** A debt never exceeds what its weight has accrued, so `Pending` cannot underflow. */
  lemma {:induction false} PendingNeverUnderflows(vault: u64, clock: i64, inputs: seq<Input>, o: Pubkey)
    requires o in Run(Initial(vault, clock), inputs).pool.positions
    ensures var s := Run(Initial(vault, clock), inputs);
      var q := s.pool.positions[o];
      var acc := s.pool.launch.accRewardPerWeight;
      && q.rewardDebt <= q.weight * acc / PRECISION
      && (exists earlier: nat :: earlier <= acc && q.rewardDebt == q.weight * earlier / PRECISION)
  {
    EveryRunIsSound(vault, clock, inputs);
    var s := Run(Initial(vault, clock), inputs);
    var q := s.pool.positions[o];
    var earlier := s.books.checkpoints[o];
    MulMonotone(earlier, s.pool.launch.accRewardPerWeight, q.weight);
    DivMonotone(q.weight * earlier, q.weight * s.pool.launch.accRewardPerWeight, PRECISION);
  }

  // ---- Machine widths ----

  /** A weight no larger than any total it was divided by cannot have accrued more than was applied. */
  lemma {:induction false} ProductWithinApplied(w: nat, events: seq<Event>)
    requires RealBatches(events)
    requires forall i :: 0 <= i < |events| ==> w <= events[i].total
    ensures w * Accumulated(events) <= PRECISION * Applied(events)
  {
    if events != [] {
      var front, last := events[..|events| - 1], events[|events| - 1];
      ProductWithinApplied(w, front);
      var increment := Increment(last.amount, last.total);
      IncrementSplitsBatch(last.amount, last.total);
      MulMonotone(w, last.total, increment);
      Distribute(w, Accumulated(front), increment);
    }
  }

  /**
   * No debt product overflows in a run that has applied at most MAX_APPLIED in all, for any
   * weight that every batch so far was divided by at least.
   */
  lemma {:induction false} DebtProductFits(vault: u64, clock: i64, inputs: seq<Input>, w: u128)
    requires var events := Run(Initial(vault, clock), inputs).books.events;
      && (forall i :: 0 <= i < |events| ==> w <= events[i].total)
      && Applied(events) <= MAX_APPLIED
    ensures var acc := Run(Initial(vault, clock), inputs).pool.launch.accRewardPerWeight;
      && w * acc <= PRECISION * Applied(Run(Initial(vault, clock), inputs).books.events)
      && RewardDebt(w, acc) == Ok(w * acc / PRECISION)
  {
    EveryRunKeepsHistory(vault, clock, inputs);
    ProductWithinApplied(w, Run(Initial(vault, clock), inputs).books.events);
  }

  // ---- What one position receives ----

  /** What this input pays to `o`. */
  function PaidTo(s: Sim, input: Input, o: Pubkey): nat {
    match input
    case Tick(_) => 0
    case Do(op) =>
      match Step(s.pool, op, s.clock)
      case Err(_) => 0
      case Ok(out) => if (op.Increase? || op.Claim? || op.Unstake?) && op.owner == o then out.paid else 0
  }

  function Received(s: Sim, inputs: seq<Input>, o: Pubkey): nat
    decreases |inputs|
  {
    if inputs == [] then 0
    else
      var front := inputs[..|inputs| - 1];
      Received(s, front, o) + PaidTo(Run(s, front), inputs[|inputs| - 1], o)
  }

  /** `o` holds on: it may claim at any time, but no increase and no unstake of its succeeds. */
  predicate HoldsOn(s: Sim, input: Input, o: Pubkey) {
    input.Do? && (input.op.Increase? || input.op.Unstake?) && Step(s.pool, input.op, s.clock).Ok?
    ==> input.op.owner != o
  }

  predicate AllHoldOn(s: Sim, inputs: seq<Input>, o: Pubkey)
    decreases |inputs|
  {
    inputs != [] ==>
      && AllHoldOn(s, inputs[..|inputs| - 1], o)
      && HoldsOn(Run(s, inputs[..|inputs| - 1]), inputs[|inputs| - 1], o)
  }

  /** A step that is not `o`'s own leaves `o`'s position alone and pays `o` nothing. */
  lemma OthersLeavePosition(s: Sim, input: Input, o: Pubkey)
    requires o in s.pool.positions
    requires input.Do? && (input.op.Stake? || input.op.Increase? || input.op.Claim? || input.op.Unstake?)
             ==> input.op.owner != o
    ensures o in Next(s, input).pool.positions
    ensures Next(s, input).pool.positions[o] == s.pool.positions[o]
    ensures PaidTo(s, input, o) == 0
  {
  }

  lemma HolderClaims(s: Sim, o: Pubkey)
    requires Sound(s) && Step(s.pool, Claim(o), s.clock).Ok?
    ensures var t := Next(s, Do(Claim(o))); var acc := s.pool.launch.accRewardPerWeight;
      && t.pool.launch.accRewardPerWeight == acc
      && t.pool.positions == s.pool.positions[o := s.pool.positions[o].(rewardDebt := s.pool.positions[o].weight * acc / PRECISION)]
      && PaidTo(s, Do(Claim(o)), o) == Owed(s.pool.positions[o], acc)
  {
    SettlementOf(s, o);
  }

  /** One step of a holder: its weight stays, and payout plus new claim follow the accumulator. */
  lemma HolderStep(s: Sim, input: Input, o: Pubkey)
    requires Sound(s) && o in s.pool.positions && HoldsOn(s, input, o)
    ensures var t := Next(s, input);
      && o in t.pool.positions
      && t.pool.positions[o].weight == s.pool.positions[o].weight
      && PaidTo(s, input, o) + Owed(t.pool.positions[o], t.pool.launch.accRewardPerWeight)
         == s.pool.positions[o].weight * t.pool.launch.accRewardPerWeight / PRECISION - s.pool.positions[o].rewardDebt
  {
    if input.Do? && Step(s.pool, input.op, s.clock).Err? {
      assert Next(s, input) == s;
    } else if input == Do(Claim(o)) {
      HolderClaims(s, o);
    } else {
      OthersLeavePosition(s, input, o);
    }
  }

  /**
   * A holder's payouts plus what it is still owed depend only on where the accumulator
   * started and ended: not on when it claimed, how often, or what anybody else did.
   */
  lemma {:induction false} HolderReceivesAccrual(s: Sim, inputs: seq<Input>, o: Pubkey)
    requires Sound(s) && o in s.pool.positions && AllHoldOn(s, inputs, o)
    ensures var t := Run(s, inputs);
      var w := s.pool.positions[o].weight;
      && o in t.pool.positions
      && t.pool.positions[o].weight == w
      && Received(s, inputs, o) + Owed(t.pool.positions[o], t.pool.launch.accRewardPerWeight)
         == w * t.pool.launch.accRewardPerWeight / PRECISION - s.pool.positions[o].rewardDebt
    decreases |inputs|
  {
    if inputs != [] {
      var front := inputs[..|inputs| - 1];
      HolderReceivesAccrual(s, front, o);
      RunPreserves(s, front);
      HolderStep(Run(s, front), inputs[|inputs| - 1], o);
    }
  }

  /** Two schedules that see the same accumulator give a holder the same total. */
  lemma {:induction false} ClaimScheduleIsIrrelevant(s: Sim, one: seq<Input>, other: seq<Input>, o: Pubkey)
    requires Sound(s) && o in s.pool.positions && AllHoldOn(s, one, o) && AllHoldOn(s, other, o)
    requires Run(s, one).pool.launch.accRewardPerWeight == Run(s, other).pool.launch.accRewardPerWeight
    ensures o in Run(s, one).pool.positions && o in Run(s, other).pool.positions
    ensures var acc := Run(s, one).pool.launch.accRewardPerWeight;
      Received(s, one, o) + Owed(Run(s, one).pool.positions[o], acc)
      == Received(s, other, o) + Owed(Run(s, other).pool.positions[o], acc)
  {
    HolderReceivesAccrual(s, one, o);
    HolderReceivesAccrual(s, other, o);
  }
}
