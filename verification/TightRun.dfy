/**
 * Runs in which the bound of BoundedSolvency is reached. One staker holds a weight of 2k, a first
 * batch of 2k - 1 brings the accumulator just below PRECISION, k stakers join with a weight of one
 * and so with no debt, and a last batch of two lifts the accumulator to PRECISION. Both batches
 * are small enough for a claim to bring.
 */
module TightRun {
  import opened Arithmetic
  import opened Types
  import opened Rewards
  import opened Sums
  import opened Pool
  import opened History
  import opened Solvency

  /** The most joiners for which the first batch is one that a claim can bring. */
  const MAX_JOINERS: int := 2_767_011_611_056_433

  function WeekLong(amount: u64): StakePosition {
    StakePosition(amount, amount, 7 * DAY_SECONDS, 0)
  }

  function Join(owner: Pubkey, amount: u64): Input {
    Do(Stake(owner, amount, 7, amount, true))
  }

  /** The accumulator after the first batch. */
  function Early(k: nat): nat
    requires k > 0
  {
    Increment(2 * k - 1, 2 * k)
  }

  /** The accumulator after the last batch. */
  function Late(k: nat): nat
    requires k > 0
  {
    Early(k) + Increment(2, 3 * k)
  }

  /** The first `j` of the `k` joiners have come. */
  function JoinedRun(k: nat, j: nat): seq<Input>
    requires 1 <= k <= MAX_JOINERS
  {
    if j == 0 then [Join(0, 2 * k)] + [Do(Apply(2 * k - 1))] else JoinedRun(k, j - 1) + [Join(j, 1)]
  }

  function TightRun(k: nat): seq<Input>
    requires 1 <= k <= MAX_JOINERS
  {
    JoinedRun(k, k) + [Do(Apply(2))]
  }

  function Joined(k: nat, j: nat): map<Pubkey, StakePosition>
    requires 1 <= k <= MAX_JOINERS
  {
    if j == 0 then map[0 := WeekLong(2 * k)] else Joined(k, j - 1)[j := WeekLong(1)]
  }

  lemma Bracket(amount: nat, c: nat, k: nat)
    requires c > 0 && k > 0
    ensures c * (k * Increment(amount, c * k)) <= amount * PRECISION < c * (k * Increment(amount, c * k)) + c * k
  {
    DivBounds(amount * PRECISION, c * k);
    assert c * k * Increment(amount, c * k) == c * (k * Increment(amount, c * k));
  }

  /** The sums of the run, with the products by k as unknowns. */
  lemma BracketsAdd(k: nat, a: nat, b: nat)
    requires 1 <= k <= MAX_JOINERS
    requires 2 * (k * a) <= (2 * k - 1) * PRECISION < 2 * (k * a) + 2 * k
    requires 3 * (k * b) <= 2 * PRECISION < 3 * (k * b) + 3 * k
    ensures 0 < k * a < k * PRECISION <= k * (a + b) < k * (2 * PRECISION)
    ensures 2 * (k * PRECISION) <= 2 * (k * (a + b)) < 2 * (k * PRECISION) + PRECISION
    ensures 0 < k * b
  {
    Distribute(k, a, b);
  }

  /** Just below PRECISION before the last batch, and just above it afterwards. */
  lemma Accumulators(k: nat)
    requires 1 <= k <= MAX_JOINERS
    ensures 0 < Early(k) < PRECISION <= Late(k) < 2 * PRECISION
    ensures 2 * k * PRECISION <= 2 * k * Late(k) < 2 * k * PRECISION + PRECISION
    ensures Increment(2, 3 * k) > 0
  {
    var a, b := Early(k), Increment(2, 3 * k);
    Bracket(2 * k - 1, 2, k);
    Bracket(2, 3, k);
    hide Increment;
    BracketsAdd(k, a, b);
    CancelMul(k, 0, a);
    CancelMul(k, a, PRECISION);
    CancelMul(k, PRECISION, a + b);
    CancelMul(k, a + b, 2 * PRECISION);
    CancelMul(k, 0, b);
    assert 2 * k * (a + b) == 2 * (k * (a + b));
  }

  /** Nobody but the first staker is owed anything before the last batch, and everybody whole units after it. */
  lemma WholeUnits(k: nat)
    requires 1 <= k <= MAX_JOINERS
    ensures Early(k) / PRECISION == 0 && Late(k) / PRECISION == 1 && 2 * k * Late(k) / PRECISION == 2 * k
  {
    Accumulators(k);
    DivUnique(Early(k), PRECISION, 0);
    DivUnique(Late(k), PRECISION, 1);
    DivUnique(2 * k * Late(k), PRECISION, 2 * k);
  }

  ghost predicate After(s: Sim, k: nat, j: nat)
    requires 1 <= k <= MAX_JOINERS
  {
    && j <= k && s.clock == 0 && s.books.restakes == j
    && s.pool == Pool(LaunchConfig(2 * k + j, Early(k), 2 * k - 1), Joined(k, j), 2 * k + j)
  }

  lemma FirstStake(k: nat)
    requires 1 <= k <= MAX_JOINERS
    ensures Step(Initial(0, 0).pool, Stake(0, 2 * k, 7, 2 * k, true), 0).Ok?
    ensures var s := Next(Initial(0, 0), Join(0, 2 * k));
      && s.pool == Pool(LaunchConfig(2 * k, 0, 0), Joined(k, 0), 2 * k) && s.clock == 0 && s.books.restakes == 0
  {
    assert WeightedAmount(2 * k, 10_000) == Ok(2 * k) by { DivUnique(2 * k * 10_000, 10_000, 2 * k); }
  }

  lemma FirstBatch(s: Sim, k: nat)
    requires 1 <= k <= MAX_JOINERS
    requires s.pool == Pool(LaunchConfig(2 * k, 0, 0), Joined(k, 0), 2 * k) && s.clock == 0 && s.books.restakes == 0
    ensures Step(s.pool, Apply(2 * k - 1), 0).Ok?
    ensures After(Next(s, Do(Apply(2 * k - 1))), k, 0)
  {
    Accumulators(k);
    hide Joined, Increment;
  }

  lemma {:induction false} JoinedKeys(k: nat, j: nat, o: Pubkey)
    requires 1 <= k <= MAX_JOINERS
    ensures o in Joined(k, j) <==> o <= j
  {
    if j > 0 {
      JoinedKeys(k, j - 1, o);
    }
  }

  lemma JoinStep(s: Sim, k: nat, j: nat)
    requires 1 <= k <= MAX_JOINERS && 1 <= j <= k && After(s, k, j - 1)
    ensures Step(s.pool, Stake(j, 1, 7, 1, true), 0).Ok?
    ensures After(Next(s, Join(j, 1)), k, j)
  {
    JoinedKeys(k, j - 1, j);
    Accumulators(k);
    WholeUnits(k);
    hide Early;
    assert Opened(s.pool.launch, 1, 10_000, 7 * DAY_SECONDS) == Ok(WeekLong(1));
  }

  lemma {:induction false} AfterJoins(k: nat, j: nat)
    requires 1 <= k <= MAX_JOINERS && j <= k
    ensures After(Run(Initial(0, 0), JoinedRun(k, j)), k, j)
  {
    hide After, Initial, Next;
    if j == 0 {
      var s0 := Initial(0, 0);
      FirstStake(k);
      FirstBatch(Next(s0, Join(0, 2 * k)), k);
      RunSnoc(s0, [], Join(0, 2 * k));
      assert [] + [Join(0, 2 * k)] == [Join(0, 2 * k)];
      RunSnoc(s0, [Join(0, 2 * k)], Do(Apply(2 * k - 1)));
      assert Run(s0, []) == s0;
    } else {
      AfterJoins(k, j - 1);
      RunSnoc(Initial(0, 0), JoinedRun(k, j - 1), Join(j, 1));
      JoinStep(Run(Initial(0, 0), JoinedRun(k, j - 1)), k, j);
    }
  }

  /** What a position without debt is owed at the end. */
  lemma OwedTo(ps: map<Pubkey, StakePosition>, o: Pubkey, weight: u64, acc: nat, units: int)
    requires weight * acc / PRECISION == units
    ensures AllOwed(ps[o := WeekLong(weight)], acc) == AllOwed(ps, acc)[o := units]
    ensures AllOwed(ps, acc).Keys == ps.Keys
  {
  }

  lemma {:induction false} JoinedOwed(k: nat, j: nat)
    requires 1 <= k <= MAX_JOINERS
    ensures Sum(AllOwed(Joined(k, j), Late(k))) == 2 * k + j
  {
    WholeUnits(k);
    hide Late, AllOwed, WeekLong;
    if j == 0 {
      var none: map<Pubkey, StakePosition> := map[];
      OwedTo(none, 0, 2 * k, Late(k), 2 * k);
      assert AllOwed(none, Late(k)) == map[];
      SumUpdate(AllOwed(none, Late(k)), 0, 2 * k);
    } else {
      JoinedOwed(k, j - 1);
      JoinedKeys(k, j - 1, j);
      OwedTo(Joined(k, j - 1), j, 1, Late(k), 1);
      SumUpdate(AllOwed(Joined(k, j - 1), Late(k)), j, 1);
    }
  }

  lemma LastBatch(s: Sim, k: nat)
    requires 1 <= k <= MAX_JOINERS && After(s, k, k)
    ensures Step(s.pool, Apply(2), 0).Ok?
    ensures var t := Next(s, Do(Apply(2)));
      && t.pool.launch == LaunchConfig(3 * k, Late(k), 2 * k + 1)
      && t.pool.positions == Joined(k, k) && t.books.restakes == k
  {
    Accumulators(k);
    hide Joined, Early, Increment;
  }

  /**
   * The reserve can be short, and the bound of BoundedSolvency is the best possible: for every
   * number k of restakes from one to MAX_JOINERS there is a run, with batches that claims can
   * bring, whose stakers are owed exactly k - 1 lamports more than the reserve holds.
   */
  lemma BoundIsReached(k: nat)
    requires 1 <= k <= MAX_JOINERS
    ensures Bringable(2 * k - 1) && Bringable(2)
    ensures var s := Run(Initial(0, 0), TightRun(k));
      && s.books.restakes == k
      && Sum(AllOwed(s.pool.positions, s.pool.launch.accRewardPerWeight)) == s.pool.launch.rewardReserve + k - 1
  {
    BringableExactly(2 * k - 1);
    BringableExactly(2);
    hide Initial, Next, After, Late, Joined, AllOwed;
    AfterJoins(k, k);
    RunSnoc(Initial(0, 0), JoinedRun(k, k), Do(Apply(2)));
    LastBatch(Run(Initial(0, 0), JoinedRun(k, k)), k);
    JoinedOwed(k, k);
  }

  /** After these inputs the reserve covers everything that is owed. */
  ghost predicate Covered(vault: u64, clock: i64, inputs: seq<Input>) {
    var s := Run(Initial(vault, clock), inputs);
    Sum(AllOwed(s.pool.positions, s.pool.launch.accRewardPerWeight)) <= s.pool.launch.rewardReserve
  }

  /** Every batch of the run is one that a claim can bring. */
  ghost predicate ClaimedBatches(inputs: seq<Input>) {
    forall i :: 0 <= i < |inputs| && inputs[i].Do? && inputs[i].op.Apply? ==> Bringable(inputs[i].op.amount)
  }

  ghost predicate CoveredAfter(k: nat) {
    forall vault: u64, clock: i64, inputs: seq<Input> ::
      ClaimedBatches(inputs) && Run(Initial(vault, clock), inputs).books.restakes == k ==> Covered(vault, clock, inputs)
  }

  lemma {:induction false} JoinsAreClaimed(k: nat, j: nat)
    requires 1 <= k <= MAX_JOINERS
    ensures ClaimedBatches(JoinedRun(k, j))
  {
    hide Bringable;
    if j == 0 {
      BringableExactly(2 * k - 1);
    } else {
      JoinsAreClaimed(k, j - 1);
    }
  }

  /**
   * The reserve is certain to cover what is owed exactly as long as weight has been opened at a
   * non-zero accumulator no more than once.
   */
  lemma {:induction false} CoverIsCertainExactly(k: nat)
    requires k <= MAX_JOINERS
    ensures CoveredAfter(k) <==> k <= 1
  {
    hide Run, Initial, AllOwed, JoinedRun, Bringable;
    if k <= 1 {
      forall vault: u64, clock: i64, inputs: seq<Input>
        | ClaimedBatches(inputs) && Run(Initial(vault, clock), inputs).books.restakes == k
        ensures Covered(vault, clock, inputs)
      {
        BoundedSolvency(vault, clock, inputs);
      }
    } else {
      BoundIsReached(k);
      JoinsAreClaimed(k, k);
      BringableExactly(2);
      assert ClaimedBatches(TightRun(k));
      assert !Covered(0, 0, TightRun(k));
    }
  }
}
