/** The tight run on a quote pool: every batch fits, everybody is enrolled, and the pool ends short. */
module QuoteTightRun {
  import opened Types
  import opened Rewards
  import opened Sums
  import opened Pool
  import opened History
  import opened TightRun
  import opened Quote
  import opened QuoteRuns

  function JoinAndEnroll(owner: Pubkey, amount: u64): seq<QuoteInput> {
    [OnLaunch(Join(owner, amount))] + [OnQuote(Enroll(owner))]
  }

  function QuoteJoins(k: nat, j: nat): seq<QuoteInput>
    requires 1 <= k <= MAX_JOINERS
  {
    if j == 0 then [] + JoinAndEnroll(0, 2 * k) + [OnQuote(Batch(Claimed(2 * k - 1)))]
    else QuoteJoins(k, j - 1) + JoinAndEnroll(j, 1)
  }

  function QuoteTightRun(k: nat): seq<QuoteInput>
    requires 1 <= k <= MAX_JOINERS
  {
    QuoteJoins(k, k) + [OnQuote(Batch(2))]
  }

  const NEW := Created(Initial(0, 0), 0, 0, 0)

  function Enrolled(k: nat, j: nat): map<Pubkey, QuoteStake>
    requires 1 <= k <= MAX_JOINERS
  {
    if j == 0 then map[0 := QuoteStake(2 * k, 0)] else Enrolled(k, j - 1)[j := QuoteStake(1, 0)]
  }

  lemma {:induction false} EnrolledKeys(k: nat, j: nat, o: Pubkey)
    requires 1 <= k <= MAX_JOINERS
    ensures o in Enrolled(k, j) <==> o <= j
  {
    if j > 0 {
      EnrolledKeys(k, j - 1, o);
    }
  }

  lemma {:induction false} EnrolledWeights(k: nat, j: nat)
    requires 1 <= k <= MAX_JOINERS
    ensures Sum(RecordedWeights(Enrolled(k, j))) == 2 * k + j
  {
    if j == 0 {
      var none: map<Pubkey, int> := map[];
      SumUpdate(none, 0, 2 * k);
      assert RecordedWeights(Enrolled(k, 0)) == none[0 := 2 * k];
    } else {
      EnrolledWeights(k, j - 1);
      EnrolledKeys(k, j - 1, j);
      SumUpdate(RecordedWeights(Enrolled(k, j - 1)), j, 1);
      assert RecordedWeights(Enrolled(k, j)) == RecordedWeights(Enrolled(k, j - 1))[j := 1];
    }
  }

  /** What a snapshot without debt is owed at the end. */
  lemma OwedTo(stakes: map<Pubkey, QuoteStake>, o: Pubkey, weight: u128, acc: nat, units: int)
    requires weight * acc / PRECISION == units
    ensures QuoteOwed(stakes[o := QuoteStake(weight, 0)], acc) == QuoteOwed(stakes, acc)[o := units]
  {
  }

  lemma {:induction false} EnrolledOwed(k: nat, j: nat)
    requires 1 <= k <= MAX_JOINERS
    ensures Sum(QuoteOwed(Enrolled(k, j), Late(k))) == 2 * k + j
  {
    WholeUnits(k);
    hide Late, QuoteOwed;
    if j == 0 {
      var none: map<Pubkey, QuoteStake> := map[];
      OwedTo(none, 0, 2 * k, Late(k), 2 * k);
      NothingOwed(Late(k));
      SumUpdate(QuoteOwed(none, Late(k)), 0, 2 * k);
    } else {
      EnrolledOwed(k, j - 1);
      EnrolledKeys(k, j - 1, j);
      OwedTo(Enrolled(k, j - 1), j, 1, Late(k), 1);
      OwedKeys(Enrolled(k, j - 1), Late(k));
      SumUpdate(QuoteOwed(Enrolled(k, j - 1), Late(k)), j, 1);
    }
  }

  lemma NothingOwed(acc: nat)
    ensures QuoteOwed(map[], acc) == map[]
  {
  }

  lemma OwedKeys(stakes: map<Pubkey, QuoteStake>, acc: nat)
    ensures QuoteOwed(stakes, acc).Keys == stakes.Keys
  {
  }

  lemma Snoc(w: World, xs: seq<QuoteInput>, x: QuoteInput)
    ensures QuoteRun(w, xs + [x]) == QuoteNext(QuoteRun(w, xs), x)
  {
    assert (xs + [x])[..|xs|] == xs;
  }

  /** The launch has `j` joiners; its own accumulator never moves. */
  ghost predicate LaunchHas(s: Sim, k: nat, j: nat)
    requires 1 <= k <= MAX_JOINERS
  {
    j <= k && s.clock == 0 && s.pool == Pool(LaunchConfig(2 * k + j, 0, 0), Joined(k, j), 2 * k + j)
  }

  /** The quote pool after the first batch, with `j` joiners enrolled. */
  ghost predicate PoolHas(w: World, k: nat, j: nat)
    requires 1 <= k <= MAX_JOINERS
  {
    && w.quote.accRewardPerWeight == Early(k) && w.quote.rewardReserve == 2 * k - 1
    && w.quote.rewardVault == 2 * k - 1 && w.quote.feeOwnerAta == 0
    && w.quote.feeVault <= MAX_CLAIM && w.quote.protocolFeeReserve <= MAX_CLAIM
    && w.quote.stakes == Enrolled(k, j)
    && w.books.reopens == j && w.books.batches == [QuoteEvent(2 * k - 1, 2 * k, 2 * k)]
  }

  lemma OneJoins(s: Sim, k: nat, j: nat)
    requires 1 <= k <= MAX_JOINERS && 1 <= j <= k && LaunchHas(s, k, j - 1)
    ensures LaunchHas(Next(s, Join(j, 1)), k, j)
    ensures j in Next(s, Join(j, 1)).pool.positions && Next(s, Join(j, 1)).pool.positions[j].weight == 1
  {
    JoinedKeys(k, j - 1, j);
    assert Opened(s.pool.launch, 1, 10_000, 7 * DAY_SECONDS) == Ok(WeekLong(1));
  }

  lemma OneEnrolls(w: World, k: nat, j: nat)
    requires 1 <= k <= MAX_JOINERS && 1 <= j <= k && PoolHas(w, k, j - 1)
    requires j in w.sim.pool.positions && w.sim.pool.positions[j].weight == 1
    ensures var v := QuoteNext(w, OnQuote(Enroll(j))); v.sim == w.sim && PoolHas(v, k, j)
  {
    EnrolledKeys(k, j - 1, j);
    Accumulators(k);
    WholeUnits(k);
    hide Early, Dust;
  }

  lemma FirstEnrolls(k: nat)
    requires 1 <= k <= MAX_JOINERS
    ensures var w := QuoteNext(QuoteNext(NEW, OnLaunch(Join(0, 2 * k))), OnQuote(Enroll(0)));
      && LaunchHas(w.sim, k, 0) && w.quote == QuotePool(0, 0, 0, Enrolled(k, 0), 0, 0, 0)
      && w.books.reopens == 0 && w.books.batches == []
  {
    FirstStake(k);
    var w := QuoteNext(NEW, OnLaunch(Join(0, 2 * k)));
    assert w.sim == Next(Initial(0, 0), Join(0, 2 * k)) && w.quote == NEW.quote && w.books == NEW.books;
    EnrollsAtZero(w, 2 * k);
  }

  lemma EnrollsAtZero(w: World, amount: u64)
    requires w.quote == QuotePool(0, 0, 0, map[], 0, 0, 0) && w.books.reopens == 0 && w.books.batches == []
    requires 0 in w.sim.pool.positions && w.sim.pool.positions[0].weight == amount
    ensures var v := QuoteNext(w, OnQuote(Enroll(0)));
      && v.sim == w.sim && v.quote == QuotePool(0, 0, 0, map[0 := QuoteStake(amount, 0)], 0, 0, 0)
      && v.books.reopens == 0 && v.books.batches == []
  {
  }

  /** A batch that fits in every width is accepted, and leaves the fee owner's account as it was. */
  lemma BatchGoes(q: QuotePool, total: u128, collected: u64)
    requires total > 0 && 1 <= collected <= MAX_CLAIM && q.feeOwnerAta == 0
    requires q.rewardVault <= MAX_CLAIM && q.feeVault <= MAX_CLAIM && q.protocolFeeReserve <= MAX_CLAIM
    requires q.rewardReserve <= MAX_CLAIM
    requires 0 < Increment(Left(collected), total) && q.accRewardPerWeight + Increment(Left(collected), total) <= U128_MAX
    ensures BatchStep(q, total, collected).Ok? && BatchStep(q, total, collected).value.feeOwnerAta == 0
    ensures FeeOfBatch(collected) == collected - Left(collected) && Left(collected) <= collected
  {
    FeeIsTheRest(collected);
    hide Increment, Left, ProtocolFee;
  }

  lemma FeeIsTheRest(collected: u64)
    requires 1 <= collected <= MAX_CLAIM
    ensures 0 < Left(collected) <= collected && ProtocolFee(collected) == Ok(collected - Left(collected))
  {
  }

  lemma FirstQuoteBatch(w: World, k: nat)
    requires 1 <= k <= MAX_JOINERS && LaunchHas(w.sim, k, 0)
    requires w.quote == QuotePool(0, 0, 0, Enrolled(k, 0), 0, 0, 0) && w.books.reopens == 0 && w.books.batches == []
    ensures var v := QuoteNext(w, OnQuote(Batch(Claimed(2 * k - 1)))); v.sim == w.sim && PoolHas(v, k, 0)
  {
    Accumulators(k);
    EnrolledWeights(k, 0);
    hide Increment, Enrolled, Joined, Sum, RecordedWeights, Left, Claimed;
    var c := Claimed(2 * k - 1);
    BatchGoes(w.quote, 2 * k, c);
    BatchIsBatched(w, c);
    hide BatchStep, FeeOfBatch;
  }

  lemma Begins(k: nat)
    requires 1 <= k <= MAX_JOINERS
    ensures var w := QuoteRun(NEW, QuoteJoins(k, 0)); LaunchHas(w.sim, k, 0) && PoolHas(w, k, 0)
  {
    hide QuoteNext, LaunchHas, PoolHas;
    FirstEnrolls(k);
    var join, enroll := OnLaunch(Join(0, 2 * k)), OnQuote(Enroll(0));
    Snoc(NEW, [], join);
    assert [] + [join] + [enroll] == [] + ([join] + [enroll]);
    Snoc(NEW, [] + [join], enroll);
    Snoc(NEW, [] + JoinAndEnroll(0, 2 * k), OnQuote(Batch(Claimed(2 * k - 1))));
    assert QuoteRun(NEW, []) == NEW;
    FirstQuoteBatch(QuoteNext(QuoteNext(NEW, join), enroll), k);
  }

  lemma NextLaunch(w: World, input: Input)
    ensures QuoteNext(w, OnLaunch(input)) == w.(sim := Next(w.sim, input))
  {
    hide Next;
  }

  lemma {:induction false} EverybodyJoins(k: nat, j: nat)
    requires 1 <= k <= MAX_JOINERS && j <= k
    ensures var w := QuoteRun(NEW, QuoteJoins(k, j)); LaunchHas(w.sim, k, j) && PoolHas(w, k, j)
  {
    if j == 0 {
      Begins(k);
    } else {
      EverybodyJoins(k, j - 1);
      var w := QuoteRun(NEW, QuoteJoins(k, j - 1));
      var join, enroll := OnLaunch(Join(j, 1)), OnQuote(Enroll(j));
      Snoc(NEW, QuoteJoins(k, j - 1), join);
      Snoc(NEW, QuoteJoins(k, j - 1) + [join], enroll);
      assert QuoteJoins(k, j - 1) + [join] + [enroll] == QuoteJoins(k, j);
      hide QuoteRun, QuoteNext, Next, Enrolled, Joined, Early, QuoteJoins;
      NextLaunch(w, Join(j, 1));
      OneJoins(w.sim, k, j);
      OneEnrolls(QuoteNext(w, join), k, j);
    }
  }

  lemma LastQuoteBatch(w: World, k: nat)
    requires 1 <= k <= MAX_JOINERS && LaunchHas(w.sim, k, k) && PoolHas(w, k, k)
    ensures var v := QuoteNext(w, OnQuote(Batch(2)));
      && v.quote.accRewardPerWeight == Late(k) && v.quote.rewardReserve == 2 * k + 1 && v.quote.stakes == Enrolled(k, k)
      && v.books.reopens == k && v.books.batches == [QuoteEvent(2 * k - 1, 2 * k, 2 * k), QuoteEvent(2, 3 * k, 3 * k)]
  {
    Accumulators(k);
    EnrolledWeights(k, k);
    assert Left(2) == 2;
    hide Increment, Enrolled, Joined, Sum, RecordedWeights, Early, Left;
    BatchGoes(w.quote, 3 * k, 2);
    BatchIsBatched(w, 2);
    hide BatchStep, FeeOfBatch;
  }

  /**
   * The bound of QuoteBoundedSolvency is the best possible: for every k from one to MAX_JOINERS
   * there is a run whose batches all fit, with k enrolments at a non-zero accumulator, that ends with
   * exactly k - 1 tokens more owed than the pool holds in reserve.
   */
  lemma QuoteBoundIsReached(k: nat)
    requires 1 <= k <= MAX_JOINERS
    ensures var v := QuoteRun(NEW, QuoteTightRun(k));
      && AllFit(v.books.batches) && v.books.reopens == k
      && Sum(QuoteOwed(v.quote.stakes, v.quote.accRewardPerWeight)) == v.quote.rewardReserve + k - 1
  {
    EverybodyJoins(k, k);
    Snoc(NEW, QuoteJoins(k, k), OnQuote(Batch(2)));
    LastQuoteBatch(QuoteRun(NEW, QuoteJoins(k, k)), k);
    EnrolledOwed(k, k);
    hide QuoteRun, QuoteNext, QuoteJoins, Enrolled, Late, QuoteOwed, LaunchHas, PoolHas;
  }

  ghost predicate QuoteCoveredAfter(k: nat) {
    forall sim: Sim, rewardVault: u64, feeVault: u64, ata: u64, inputs: seq<QuoteInput> ::
      var v := QuoteRun(Created(sim, rewardVault, feeVault, ata), inputs);
      AllFit(v.books.batches) && v.books.reopens == k ==>
        Sum(QuoteOwed(v.quote.stakes, v.quote.accRewardPerWeight)) <= v.quote.rewardReserve
  }

  /** A quote pool whose batches all fit is certain to be covered exactly as long as k is at most one. */
  lemma QuoteCoverIsCertainExactly(k: nat)
    requires k <= MAX_JOINERS
    ensures QuoteCoveredAfter(k) <==> k <= 1
  {
    hide QuoteRun, Created, QuoteOwed, Sum, AllFit, QuoteTightRun;
    if k <= 1 {
      forall sim: Sim, rewardVault: u64, feeVault: u64, ata: u64, inputs: seq<QuoteInput>
        | AllFit(QuoteRun(Created(sim, rewardVault, feeVault, ata), inputs).books.batches)
          && QuoteRun(Created(sim, rewardVault, feeVault, ata), inputs).books.reopens == k
        ensures var v := QuoteRun(Created(sim, rewardVault, feeVault, ata), inputs);
          Sum(QuoteOwed(v.quote.stakes, v.quote.accRewardPerWeight)) <= v.quote.rewardReserve
      {
        QuoteBoundedSolvency(sim, rewardVault, feeVault, ata, inputs);
      }
    } else {
      QuoteBoundIsReached(k);
    }
  }
}
