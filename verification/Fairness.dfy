/** How far what a position receives can be from its exact pro-rata share, in exact rationals. */
module Fairness {
  import opened Arithmetic
  import opened Types
  import opened Rewards
  import opened Pool
  import opened History
  import opened Solvency
  import opened Accrual

  /** The exact share of weight `w` in a series of batches: the sum of w * amount / total. */
  ghost function ExactShare(w: nat, events: seq<Event>): real
    requires RealBatches(events)
  {
    if events == [] then 0.0
    else
      var last := events[|events| - 1];
      ExactShare(w, events[..|events| - 1]) + (w * last.amount) as real / last.total as real
  }

  lemma CancelFactor(x: real, y: real, c: real)
    requires c > 0.0 && x * c <= y * c
    ensures x <= y
  {
  }

  lemma CrossMultiply(u: nat, p: nat, v: nat, t: nat)
    requires p > 0 && t > 0 && u * t <= v * p
    ensures u as real / p as real <= v as real / t as real
  {
    var x, y := u as real / p as real, v as real / t as real;
    var pr, tr := p as real, t as real;
    assert x * (pr * tr) == (u * t) as real by { assert x * pr == u as real; }
    assert y * (pr * tr) == (v * p) as real by { assert y * tr == v as real; }
    assert pr * tr > 0.0;
    CancelFactor(x, y, pr * tr);
  }

  /** One batch: the increment credits at most the exact share, and misses it by less than w / PRECISION. */
  lemma BatchShare(w: nat, amount: nat, total: nat)
    requires total > 0
    ensures var credited := (w * Increment(amount, total)) as real / PRECISION as real;
      var exact := (w * amount) as real / total as real;
      credited <= exact <= credited + w as real / PRECISION as real
  {
    var increment := Increment(amount, total);
    DivBounds(amount * PRECISION, total);
    MulMonotone(total * increment, amount * PRECISION, w);
    assert w * increment * total == w * (total * increment);
    assert w * amount * PRECISION == w * (amount * PRECISION);
    CrossMultiply(w * increment, PRECISION, w * amount, total);
    MulMonotone(amount * PRECISION, total * increment + total, w);
    assert w * (total * increment + total) == (w * increment + w) * total;
    CrossMultiply(w * amount, total, w * increment + w, PRECISION);
    assert (w * increment + w) as real == (w * increment) as real + w as real;
  }

  lemma QuotientOfSum(x: nat, y: nat)
    ensures (x + y) as real / PRECISION as real == x as real / PRECISION as real + y as real / PRECISION as real
  {
  }

  lemma OneMore(n: nat, r: real)
    ensures (n + 1) as real * r == n as real * r + r
  {
  }

  lemma {:induction false} SharesOfBatches(w: nat, events: seq<Event>)
    requires RealBatches(events)
    ensures var credited := (w * Accumulated(events)) as real / PRECISION as real;
      credited <= ExactShare(w, events) <= credited + |events| as real * (w as real / PRECISION as real)
  {
    if events != [] {
      var front, last := events[..|events| - 1], events[|events| - 1];
      SharesOfBatches(w, front);
      BatchShare(w, last.amount, last.total);
      Distribute(w, Accumulated(front), Increment(last.amount, last.total));
      QuotientOfSum(w * Accumulated(front), w * Increment(last.amount, last.total));
      OneMore(|front|, w as real / PRECISION as real);
    }
  }

  lemma {:induction false} AccumulatedAppend(early: seq<Event>, late: seq<Event>)
    requires RealBatches(early + late)
    ensures RealBatches(early) && RealBatches(late)
    ensures Accumulated(early + late) == Accumulated(early) + Accumulated(late)
    decreases |late|
  {
    assert early == (early + late)[..|early|];
    forall i | 0 <= i < |early|
      ensures early[i].total > 0
    {
      assert early[i] == (early + late)[i];
    }
    forall i | 0 <= i < |late|
      ensures late[i].total > 0
    {
      assert late[i] == (early + late)[|early| + i];
    }
    if late == [] {
      assert early + late == early;
    } else {
      assert (early + late)[..|early + late| - 1] == early + late[..|late| - 1];
      AccumulatedAppend(early, late[..|late| - 1]);
    }
  }

  /** Two floor quotients differ by the exact quotient, give or take less than one. */
  lemma FloorDifference(x: nat, y: nat)
    requires x <= y
    ensures var exact := (y - x) as real / PRECISION as real;
      exact - 1.0 < (y / PRECISION - x / PRECISION) as real < exact + 1.0
  {
    DivBounds(x, PRECISION);
    DivBounds(y, PRECISION);
    var d := y / PRECISION - x / PRECISION;
    assert PRECISION * d - PRECISION < y - x < PRECISION * d + PRECISION;
    assert (PRECISION * d) as real / PRECISION as real == d as real;
  }

  /** The batches that arrived during `inputs`. */
  ghost function BatchesDuring(s: Sim, inputs: seq<Input>): seq<Event> {
    var all := Run(s, inputs).books.events;
    if |s.books.events| <= |all| then all[|s.books.events|..] else []
  }

  /** What holder `o` gained during `inputs`: its payouts, and the growth of what it is owed. */
  ghost function Gained(s: Sim, inputs: seq<Input>, o: Pubkey): int
    requires o in s.pool.positions && o in Run(s, inputs).pool.positions
  {
    var t := Run(s, inputs);
    Received(s, inputs, o)
    + Owed(t.pool.positions[o], t.pool.launch.accRewardPerWeight)
    - Owed(s.pool.positions[o], s.pool.launch.accRewardPerWeight)
  }

  /** Less than one above the exact share, and less than 1 + m * w / PRECISION below it. */
  ghost predicate NearShare(gained: int, w: nat, batches: seq<Event>)
    requires RealBatches(batches)
  {
    var share := ExactShare(w, batches);
    share - |batches| as real * (w as real / PRECISION as real) - 1.0 < gained as real < share + 1.0
  }

  lemma {:induction false} GainedIsAccrual(s: Sim, inputs: seq<Input>, o: Pubkey)
    requires Sound(s) && o in s.pool.positions && AllHoldOn(s, inputs, o)
    ensures o in Run(s, inputs).pool.positions
    ensures Gained(s, inputs, o)
         == s.pool.positions[o].weight * Run(s, inputs).pool.launch.accRewardPerWeight / PRECISION
            - s.pool.positions[o].weight * s.pool.launch.accRewardPerWeight / PRECISION
  {
    HolderReceivesAccrual(s, inputs, o);
  }

  lemma {:induction false} AccumulatorRise(s: Sim, inputs: seq<Input>)
    requires HistoryKept(s)
    ensures var batches := BatchesDuring(s, inputs);
      && RealBatches(batches)
      && Run(s, inputs).pool.launch.accRewardPerWeight == s.pool.launch.accRewardPerWeight + Accumulated(batches)
  {
    RunKeepsHistory(s, inputs);
    assert Run(s, inputs).books.events == s.books.events + BatchesDuring(s, inputs);
    AccumulatedAppend(s.books.events, BatchesDuring(s, inputs));
  }

  lemma AccrualNearShare(w: nat, a0: nat, a1: nat, batches: seq<Event>, gained: int)
    requires RealBatches(batches) && a1 == a0 + Accumulated(batches)
    requires gained == w * a1 / PRECISION - w * a0 / PRECISION
    ensures NearShare(gained, w, batches)
  {
    var d := Accumulated(batches);
    Distribute(w, a0, d);
    assert w * d >= 0;
    FloorDifference(w * a0, w * a1);
    SharesOfBatches(w, batches);
  }

  lemma {:induction false} HolderGainsShare(s: Sim, inputs: seq<Input>, o: Pubkey)
    requires Sound(s) && HistoryKept(s) && o in s.pool.positions && AllHoldOn(s, inputs, o)
    ensures o in Run(s, inputs).pool.positions
    ensures RealBatches(BatchesDuring(s, inputs))
    ensures NearShare(Gained(s, inputs, o), s.pool.positions[o].weight, BatchesDuring(s, inputs))
  {
    GainedIsAccrual(s, inputs, o);
    AccumulatorRise(s, inputs);
    AccrualNearShare(s.pool.positions[o].weight, s.pool.launch.accRewardPerWeight,
                     Run(s, inputs).pool.launch.accRewardPerWeight, BatchesDuring(s, inputs), Gained(s, inputs, o));
  }

  /**
   * Fairness: from any point of any run, while a position of weight w holds on, what it is paid
   * plus what it is owed grows by its exact pro-rata share of the m batches that arrive, less
   * than one lamport more and less than 1 + m * w / PRECISION lamports less, whatever anybody
   * else does in between.
   */
  lemma {:induction false} PaidExactShare(vault: u64, clock: i64, before: seq<Input>, inputs: seq<Input>, o: Pubkey)
    requires o in Run(Initial(vault, clock), before).pool.positions
    requires AllHoldOn(Run(Initial(vault, clock), before), inputs, o)
    ensures var s := Run(Initial(vault, clock), before);
      && o in Run(s, inputs).pool.positions
      && RealBatches(BatchesDuring(s, inputs))
      && NearShare(Gained(s, inputs, o), s.pool.positions[o].weight, BatchesDuring(s, inputs))
  {
    EveryRunIsSound(vault, clock, before);
    EveryRunKeepsHistory(vault, clock, before);
    HolderGainsShare(Run(Initial(vault, clock), before), inputs, o);
  }
}
