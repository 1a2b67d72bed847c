/** How the sums over a launch's positions move when one position changes or the accumulator does. */
module Positions {
  import opened Arithmetic
  import opened Types
  import opened Rewards
  import opened Sums
  import opened Pool

  type Positions = map<Pubkey, StakePosition>

  lemma SetPosition(ps: Positions, o: Pubkey, q: StakePosition, acc: nat)
    ensures Sum(Weights(ps[o := q])) == Sum(Weights(ps)) - At(Weights(ps), o) + q.weight
    ensures Sum(Amounts(ps[o := q])) == Sum(Amounts(ps)) - At(Amounts(ps), o) + q.amount
    ensures Sum(Credits(ps[o := q], acc))
         == Sum(Credits(ps, acc)) - At(Credits(ps, acc), o) + Credit(q.weight, q.rewardDebt, acc)
  {
    assert Weights(ps[o := q]) == Weights(ps)[o := q.weight];
    assert Amounts(ps[o := q]) == Amounts(ps)[o := q.amount];
    assert Credits(ps[o := q], acc) == Credits(ps, acc)[o := Credit(q.weight, q.rewardDebt, acc)];
    SumUpdate(Weights(ps), o, q.weight);
    SumUpdate(Amounts(ps), o, q.amount);
    SumUpdate(Credits(ps, acc), o, Credit(q.weight, q.rewardDebt, acc));
  }

  lemma DropPosition(ps: Positions, o: Pubkey, acc: nat)
    ensures Sum(Weights(ps - {o})) == Sum(Weights(ps)) - At(Weights(ps), o)
    ensures Sum(Amounts(ps - {o})) == Sum(Amounts(ps)) - At(Amounts(ps), o)
    ensures Sum(Credits(ps - {o}, acc)) == Sum(Credits(ps, acc)) - At(Credits(ps, acc), o)
  {
    assert Weights(ps - {o}) == Weights(ps) - {o};
    assert Amounts(ps - {o}) == Amounts(ps) - {o};
    assert Credits(ps - {o}, acc) == Credits(ps, acc) - {o};
    SumRemove(Weights(ps), o);
    SumRemove(Amounts(ps), o);
    SumRemove(Credits(ps, acc), o);
  }

  /** An accumulator increment credits the pool with the increment times its total weight. */
  lemma RaiseAccumulator(ps: Positions, acc: nat, increment: nat)
    ensures Sum(Credits(ps, acc + increment)) == Sum(Credits(ps, acc)) + increment * Sum(Weights(ps))
  {
    forall o | o in ps
      ensures Credits(ps, acc + increment)[o] == Credits(ps, acc)[o] + increment * Weights(ps)[o]
    {
      Distribute(ps[o].weight, acc, increment);
    }
    SumLinear(Credits(ps, acc), Weights(ps), increment, Credits(ps, acc + increment));
  }

  lemma WeightAtMostTotal(ps: Positions, o: Pubkey)
    requires o in ps
    ensures ps[o].weight <= Sum(Weights(ps))
    ensures ps[o].amount <= Sum(Amounts(ps))
  {
    SumAtLeast(Weights(ps), o);
    SumAtLeast(Amounts(ps), o);
  }

  /** PRECISION times everything owed is at most the sum of the credits. */
  lemma {:induction false} OwedWithinCredits(ps: Positions, acc: nat)
    requires forall o :: o in ps ==> Credit(ps[o].weight, ps[o].rewardDebt, acc) >= 0
    ensures PRECISION * Sum(AllOwed(ps, acc)) <= Sum(Credits(ps, acc))
    ensures Sum(AllOwed(ps, acc)) >= 0
  {
    var zero := map o | o in ps :: 0;
    var scaled := map o | o in ps :: PRECISION * Owed(ps[o], acc);
    forall o | o in ps
      ensures 0 <= PRECISION * Owed(ps[o], acc) <= Credit(ps[o].weight, ps[o].rewardDebt, acc)
    {
      DivMinusMultiple(ps[o].weight * acc, PRECISION, ps[o].rewardDebt);
      DivBounds(Credit(ps[o].weight, ps[o].rewardDebt, acc), PRECISION);
    }
    SumLinear(zero, AllOwed(ps, acc), PRECISION, scaled);
    SumConstantZero(zero);
    SumMonotone(scaled, Credits(ps, acc));
    SumNonNegative(AllOwed(ps, acc));
  }

  /** The fraction of a unit of each position that cannot be paid yet, in units of 1 / PRECISION. */
  ghost function Fractions(ps: Positions, acc: nat): map<Pubkey, int> {
    map o | o in ps :: ps[o].weight * acc % PRECISION
  }

  /** The credits are the whole units owed and the fractions left over. */
  lemma CreditsSplit(ps: Positions, acc: nat)
    ensures Sum(Credits(ps, acc)) == PRECISION * Sum(AllOwed(ps, acc)) + Sum(Fractions(ps, acc))
  {
    forall o | o in ps
      ensures Credits(ps, acc)[o] == Fractions(ps, acc)[o] + PRECISION * AllOwed(ps, acc)[o]
    {
      DivBounds(ps[o].weight * acc, PRECISION);
    }
    SumLinear(Fractions(ps, acc), AllOwed(ps, acc), PRECISION, Credits(ps, acc));
  }

  lemma {:induction false} SumConstantZero(m: map<Pubkey, int>)
    requires forall o :: o in m ==> m[o] == 0
    ensures Sum(m) == 0
    decreases |m|
  {
    if m != map[] {
      var o :| o in m;
      SumSplit(m, o);
      SumConstantZero(m - {o});
    }
  }
}
