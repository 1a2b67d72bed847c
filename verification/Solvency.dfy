/** What every run of a launch preserves, and how far its reserve can fall short of what it owes. */
module Solvency {
  import opened Arithmetic
  import opened Types
  import opened Rewards
  import opened Sums
  import opened Pool
  import opened Positions
  import opened History

  // ---- The invariants ----

  /** The stored total is the sum of the weights, and weights match the staked amounts. */
  ghost predicate Bookkept(p: Pool) {
    && p.launch.totalWeightedStake == Sum(Weights(p.positions))
    && forall o :: o in p.positions ==>
         && 0 < p.positions[o].amount <= p.positions[o].weight
         && 2 * p.positions[o].weight <= 5 * p.positions[o].amount
  }

  /** The vault holds the staked principal plus what outsiders put there. */
  ghost predicate VaultBacked(s: Sim) {
    s.pool.vault == Sum(Amounts(s.pool.positions)) + s.books.outsideTokens
  }

  /** Every debt is the rounded value of the weight at some earlier accumulator. */
  ghost predicate DebtsFromThePast(s: Sim) {
    && s.books.checkpoints.Keys == s.pool.positions.Keys
    && forall o :: o in s.pool.positions ==>
         && s.books.checkpoints[o] <= s.pool.launch.accRewardPerWeight
         && s.pool.positions[o].rewardDebt == s.pool.positions[o].weight * s.books.checkpoints[o] / PRECISION
  }

  /** The dust ledger: the reserve matches the outstanding credit, dust accounted for exactly. */
  ghost predicate DustBalanced(s: Sim) {
    PRECISION * s.pool.launch.rewardReserve + s.books.entryDust
      == Sum(Credits(s.pool.positions, s.pool.launch.accRewardPerWeight)) + s.books.applyDust + s.books.exitDust
  }

  ghost predicate EntryDustBounded(s: Sim) {
    s.books.entryDust <= (PRECISION - 1) * s.books.restakes
  }

  ghost predicate Sound(s: Sim) {
    Bookkept(s.pool) && VaultBacked(s) && DebtsFromThePast(s) && DustBalanced(s) && EntryDustBounded(s)
  }

  // ---- Preservation, one instruction at a time ----

  lemma DebtsArePayable(s: Sim, o: Pubkey)
    requires DebtsFromThePast(s) && o in s.pool.positions
    ensures var q := s.pool.positions[o];
      Credit(q.weight, q.rewardDebt, s.pool.launch.accRewardPerWeight) >= 0
  {
    var q := s.pool.positions[o];
    DivBounds(q.weight * s.books.checkpoints[o], PRECISION);
    MulMonotone(s.books.checkpoints[o], s.pool.launch.accRewardPerWeight, q.weight);
  }

  lemma OpenedIsSettled(l: LaunchConfig, amount: u64, lockDays: nat, multiplier: u64, unlockTs: i64)
    requires LockMultiplier(lockDays) == Ok(multiplier)
    requires Opened(l, amount, multiplier, unlockTs).Ok?
    ensures var q := Opened(l, amount, multiplier, unlockTs).value;
      && amount <= q.weight && 2 * q.weight <= 5 * amount
      && q.amount == amount && q.unlockTs == unlockTs
      && q.rewardDebt == q.weight * l.accRewardPerWeight / PRECISION
      && Credit(q.weight, q.rewardDebt, l.accRewardPerWeight) == Dust(q.weight, l.accRewardPerWeight)
      && 0 <= Dust(q.weight, l.accRewardPerWeight) <= PRECISION - 1
      && (l.accRewardPerWeight == 0 ==> Dust(q.weight, l.accRewardPerWeight) == 0)
  {
    var q := Opened(l, amount, multiplier, unlockTs).value;
    WeightBounds(amount, lockDays);
    SettledCredit(q.weight, l.accRewardPerWeight);
  }

  /** A batch is what it credits to the total weight, plus the dust it cannot divide. */
  lemma IncrementSplitsBatch(amount: nat, total: nat)
    requires total > 0
    ensures Increment(amount, total) * total + amount * PRECISION % total == amount * PRECISION
  {
    DivBounds(amount * PRECISION, total);
  }

  lemma ApplyBalancesDust(s: Sim, amount: u64)
    requires Bookkept(s.pool) && DustBalanced(s) && Step(s.pool, Apply(amount), s.clock).Ok?
    ensures DustBalanced(Next(s, Do(Apply(amount))))
  {
    var l := s.pool.launch;
    var increment := Increment(amount, l.totalWeightedStake);
    RaiseAccumulator(s.pool.positions, l.accRewardPerWeight, increment);
    IncrementSplitsBatch(amount, l.totalWeightedStake);
    var t := Next(s, Do(Apply(amount)));
    assert t.books.applyDust == s.books.applyDust + amount * PRECISION % l.totalWeightedStake;
    assert t.pool.launch.accRewardPerWeight == l.accRewardPerWeight + increment;
  }

  lemma ApplyPreserves(s: Sim, amount: u64)
    requires Sound(s) && Step(s.pool, Apply(amount), s.clock).Ok?
    ensures Sound(Next(s, Do(Apply(amount))))
  {
    ApplyBalancesDust(s, amount);
  }

  /** What settling a position pays, and what it leaves. */
  lemma SettlementOf(s: Sim, o: Pubkey)
    requires DebtsFromThePast(s) && o in s.pool.positions
    ensures var q := s.pool.positions[o]; var acc := s.pool.launch.accRewardPerWeight;
      var pending := Pending(q.weight, q.rewardDebt, acc);
      pending.Ok? ==>
        && pending.value == Owed(q, acc)
        && PRECISION * pending.value + Dust(q.weight, acc) == Credit(q.weight, q.rewardDebt, acc)
  {
    var q := s.pool.positions[o];
    var acc := s.pool.launch.accRewardPerWeight;
    DebtsArePayable(s, o);
    PendingIsWholeCredit(q.weight, q.rewardDebt, acc);
    DivBounds(Credit(q.weight, q.rewardDebt, acc), PRECISION);
  }

  /**
   * `t` is `s` after `owner`'s weight was settled, if it had any, and opened again as `q`:
   * `added` tokens came in, `paid` lamports went out and `exit` is the dust left behind.
   */
  ghost predicate Reopens(s: Sim, t: Sim, o: Pubkey, q: StakePosition, added: int, paid: int, exit: int) {
    var l, m := s.pool.launch, t.pool.launch;
    && t.pool.positions == s.pool.positions[o := q]
    && t.pool.vault == s.pool.vault + added
    && m.totalWeightedStake == l.totalWeightedStake - WeightOf(s.pool, o) + q.weight
    && m.accRewardPerWeight == l.accRewardPerWeight
    && m.rewardReserve == l.rewardReserve - paid
    && t.books.outsideTokens == s.books.outsideTokens
    && t.books.applyDust == s.books.applyDust
    && t.books.exitDust == s.books.exitDust + exit
    && t.books.entryDust == s.books.entryDust + Dust(q.weight, l.accRewardPerWeight)
    && t.books.restakes == s.books.restakes + (if l.accRewardPerWeight > 0 then 1 else 0)
    && t.books.checkpoints == s.books.checkpoints[o := l.accRewardPerWeight]
  }

  lemma ReopenKeepsBooks(s: Sim, t: Sim, o: Pubkey, q: StakePosition, added: int, paid: int, exit: int)
    requires Bookkept(s.pool) && VaultBacked(s) && Reopens(s, t, o, q, added, paid, exit)
    requires q.amount == AmountOf(s.pool, o) + added
    requires 0 < q.amount <= q.weight && 2 * q.weight <= 5 * q.amount
    ensures Bookkept(t.pool) && VaultBacked(t)
  {
    hide Sum, Dust, Credit, Credits;
    SetPosition(s.pool.positions, o, q, s.pool.launch.accRewardPerWeight);
  }

  lemma ReopenKeepsDebts(s: Sim, t: Sim, o: Pubkey, q: StakePosition, added: int, paid: int, exit: int)
    requires DebtsFromThePast(s) && Reopens(s, t, o, q, added, paid, exit)
    requires q.rewardDebt == q.weight * s.pool.launch.accRewardPerWeight / PRECISION
    ensures DebtsFromThePast(t)
  {
  }

  lemma ReopenKeepsDust(s: Sim, t: Sim, o: Pubkey, q: StakePosition, added: int, paid: int, exit: int)
    requires Sound(s) && Reopens(s, t, o, q, added, paid, exit)
    requires PRECISION * paid + exit == At(Credits(s.pool.positions, s.pool.launch.accRewardPerWeight), o)
    requires Credit(q.weight, q.rewardDebt, s.pool.launch.accRewardPerWeight) == Dust(q.weight, s.pool.launch.accRewardPerWeight)
    requires s.pool.launch.accRewardPerWeight == 0 ==> Dust(q.weight, s.pool.launch.accRewardPerWeight) == 0
    ensures DustBalanced(t) && EntryDustBounded(t)
  {
    SetPosition(s.pool.positions, o, q, s.pool.launch.accRewardPerWeight);
  }

  lemma StakePreserves(s: Sim, op: Op)
    requires Sound(s) && op.Stake? && Step(s.pool, op, s.clock).Ok?
    ensures Sound(Next(s, Do(op)))
  {
    var l := s.pool.launch;
    var multiplier := LockMultiplier(op.lockDays).value;
    var unlockTs := UnlockTime(s.clock, op.lockDays).value;
    OpenedIsSettled(l, op.amount, op.lockDays, multiplier, unlockTs);
    var q := Opened(l, op.amount, multiplier, unlockTs).value;
    var t := Next(s, Do(op));
    assert Reopens(s, t, op.owner, q, op.amount, 0, 0);
    ReopenKeepsBooks(s, t, op.owner, q, op.amount, 0, 0);
    ReopenKeepsDebts(s, t, op.owner, q, op.amount, 0, 0);
    ReopenKeepsDust(s, t, op.owner, q, op.amount, 0, 0);
  }

  /** An increase settles the old weight and opens the new one. */
  lemma IncreaseReopens(s: Sim, op: Op) returns (q: StakePosition, paid: nat)
    requires DebtsFromThePast(s) && op.Increase? && Step(s.pool, op, s.clock).Ok?
    ensures op.owner in s.pool.positions
    ensures var prior := s.pool.positions[op.owner]; var acc := s.pool.launch.accRewardPerWeight;
      && Reopens(s, Next(s, Do(op)), op.owner, q, op.amount, paid, Dust(prior.weight, acc))
      && PRECISION * paid + Dust(prior.weight, acc) == Credit(prior.weight, prior.rewardDebt, acc)
      && q.amount == prior.amount + op.amount <= q.weight && 2 * q.weight <= 5 * q.amount
      && q.rewardDebt == q.weight * acc / PRECISION
      && Credit(q.weight, q.rewardDebt, acc) == Dust(q.weight, acc)
      && (acc == 0 ==> Dust(q.weight, acc) == 0)
  {
    var l := s.pool.launch;
    var prior := s.pool.positions[op.owner];
    SettlementOf(s, op.owner);
    paid := Pending(prior.weight, prior.rewardDebt, l.accRewardPerWeight).value;
    var multiplier := LockMultiplier(op.lockDays).value;
    var unlockTs := UnlockTime(s.clock, op.lockDays).value;
    var settled := l.(rewardReserve := l.rewardReserve - paid);
    OpenedIsSettled(settled, prior.amount + op.amount, op.lockDays, multiplier, unlockTs);
    q := Opened(settled, prior.amount + op.amount, multiplier, unlockTs).value;
  }

  lemma IncreasePreserves(s: Sim, op: Op)
    requires Sound(s) && op.Increase? && Step(s.pool, op, s.clock).Ok?
    ensures Sound(Next(s, Do(op)))
  {
    var q, paid := IncreaseReopens(s, op);
    var exit := Dust(s.pool.positions[op.owner].weight, s.pool.launch.accRewardPerWeight);
    var t := Next(s, Do(op));
    ReopenKeepsBooks(s, t, op.owner, q, op.amount, paid, exit);
    ReopenKeepsDebts(s, t, op.owner, q, op.amount, paid, exit);
    ReopenKeepsDust(s, t, op.owner, q, op.amount, paid, exit);
  }

  /** A claim pays out the whole units of a credit and keeps its fraction. */
  lemma ClaimSettles(s: Sim, o: Pubkey)
    requires DebtsFromThePast(s) && Step(s.pool, Claim(o), s.clock).Ok?
    ensures o in s.pool.positions
    ensures var t := Next(s, Do(Claim(o)));
      var q := s.pool.positions[o];
      var acc := s.pool.launch.accRewardPerWeight;
      var paid := Step(s.pool, Claim(o), s.clock).value.paid;
      && paid == Owed(q, acc)
      && t.pool == Pool(s.pool.launch.(rewardReserve := t.pool.launch.rewardReserve),
                        s.pool.positions[o := q.(rewardDebt := t.pool.positions[o].rewardDebt)], s.pool.vault)
      && o in t.pool.positions
      && t.pool.positions[o].rewardDebt == q.weight * acc / PRECISION
      && t.pool.launch.rewardReserve == s.pool.launch.rewardReserve - paid
      && t.books == s.books.(paid := s.books.paid + paid, checkpoints := s.books.checkpoints[o := acc])
      && PRECISION * paid + Dust(q.weight, acc) == Credit(q.weight, q.rewardDebt, acc)
      && Credit(q.weight, t.pool.positions[o].rewardDebt, acc) == Dust(q.weight, acc)
  {
    SettlementOf(s, o);
    SettledCredit(s.pool.positions[o].weight, s.pool.launch.accRewardPerWeight);
  }

  lemma ClaimPreserves(s: Sim, o: Pubkey)
    requires Sound(s) && Step(s.pool, Claim(o), s.clock).Ok?
    ensures Sound(Next(s, Do(Claim(o))))
  {
    hide Step, Next, Dust, Credit, Owed, Sum;
    ClaimSettles(s, o);
    SetPosition(s.pool.positions, o, Next(s, Do(Claim(o))).pool.positions[o], s.pool.launch.accRewardPerWeight);
  }

  lemma UnstakePreserves(s: Sim, o: Pubkey)
    requires Sound(s) && Step(s.pool, Unstake(o), s.clock).Ok?
    ensures Sound(Next(s, Do(Unstake(o))))
  {
    hide Sum;
    SettlementOf(s, o);
    DropPosition(s.pool.positions, o, s.pool.launch.accRewardPerWeight);
  }

  lemma {:induction false} NextPreserves(s: Sim, input: Input)
    requires Sound(s)
    ensures Sound(Next(s, input))
  {
    match input
    case Tick(_) =>
    case Do(op) =>
      if Step(s.pool, op, s.clock).Ok? {
        match op
        case Apply(amount) => ApplyPreserves(s, amount);
        case Stake(_, _, _, _, _) => StakePreserves(s, op);
        case Increase(_, _, _, _, _) => IncreasePreserves(s, op);
        case Claim(o) => ClaimPreserves(s, o);
        case Unstake(o) => UnstakePreserves(s, o);
        case VaultDeposit(_) =>
      }
  }

  lemma {:induction false} RunPreserves(s: Sim, inputs: seq<Input>)
    requires Sound(s)
    ensures Sound(Run(s, inputs))
    decreases |inputs|
  {
    if inputs != [] {
      RunPreserves(s, inputs[..|inputs| - 1]);
      NextPreserves(Run(s, inputs[..|inputs| - 1]), inputs[|inputs| - 1]);
    }
  }

  lemma {:induction false} EveryRunIsSound(vault: u64, clock: i64, inputs: seq<Input>)
    ensures Sound(Run(Initial(vault, clock), inputs))
  {
    var s := Initial(vault, clock);
    assert Weights(s.pool.positions) == map[] && Amounts(s.pool.positions) == map[];
    assert Credits(s.pool.positions, 0) == map[];
    RunPreserves(s, inputs);
  }

  // ---- What follows in every reachable state ----

  /**
   * The reserve covers the outstanding credit, fractions of a lamport included, precisely when
   * the dust granted on entry is no more than the dust kept back on batches and exits.
   */
  lemma {:induction false} CreditsCoveredExactly(vault: u64, clock: i64, inputs: seq<Input>)
    ensures var s := Run(Initial(vault, clock), inputs);
      Sum(Credits(s.pool.positions, s.pool.launch.accRewardPerWeight)) <= PRECISION * s.pool.launch.rewardReserve
      <==> s.books.entryDust <= s.books.applyDust + s.books.exitDust
  {
    EveryRunIsSound(vault, clock, inputs);
  }

  lemma SoundIsSolventExactly(s: Sim)
    requires DustBalanced(s)
    ensures var acc := s.pool.launch.accRewardPerWeight;
      Sum(AllOwed(s.pool.positions, acc)) <= s.pool.launch.rewardReserve
      <==> s.books.entryDust <= s.books.applyDust + s.books.exitDust + Sum(Fractions(s.pool.positions, acc))
  {
    CreditsSplit(s.pool.positions, s.pool.launch.accRewardPerWeight);
  }

  /**
   * The exact solvency condition: the reserve covers every lamport that could be claimed
   * precisely when the dust granted on entry is no more than the dust kept back on batches and
   * exits together with the fractions of a lamport the open positions cannot be paid yet.
   */
  lemma {:induction false} SolventExactlyWhenDustCovers(vault: u64, clock: i64, inputs: seq<Input>)
    ensures var s := Run(Initial(vault, clock), inputs);
      var acc := s.pool.launch.accRewardPerWeight;
      Sum(AllOwed(s.pool.positions, acc)) <= s.pool.launch.rewardReserve
      <==> s.books.entryDust <= s.books.applyDust + s.books.exitDust + Sum(Fractions(s.pool.positions, acc))
  {
    EveryRunIsSound(vault, clock, inputs);
    SoundIsSolventExactly(Run(Initial(vault, clock), inputs));
  }

  /**
   * Bounded solvency over every run: each stake or increase made at a non-zero accumulator
   * can leave the reserve short by less than one lamport, and nothing else can.
   */
  lemma {:induction false} BoundedSolvency(vault: u64, clock: i64, inputs: seq<Input>)
    ensures var s := Run(Initial(vault, clock), inputs);
      var acc := s.pool.launch.accRewardPerWeight;
      var owed := Sum(AllOwed(s.pool.positions, acc));
      var reserve := s.pool.launch.rewardReserve;
      && Sum(Credits(s.pool.positions, acc)) <= PRECISION * reserve + (PRECISION - 1) * s.books.restakes
      && (s.books.restakes == 0 ==> owed <= reserve)
      && (s.books.restakes > 0 ==> owed <= reserve + s.books.restakes - 1)
  {
    EveryRunIsSound(vault, clock, inputs);
    var s := Run(Initial(vault, clock), inputs);
    forall o | o in s.pool.positions
      ensures Credit(s.pool.positions[o].weight, s.pool.positions[o].rewardDebt, s.pool.launch.accRewardPerWeight) >= 0
    {
      DebtsArePayable(s, o);
    }
    OwedWithinCredits(s.pool.positions, s.pool.launch.accRewardPerWeight);
  }

  lemma RunSnoc(s: Sim, xs: seq<Input>, x: Input)
    ensures Run(s, xs + [x]) == Next(Run(s, xs), x)
  {
    assert (xs + [x])[..|xs|] == xs;
  }

  /** A claim succeeds exactly when something is owed, it fits, and the reserve covers it. */
  lemma ClaimSucceedsExactly(vault: u64, clock: i64, inputs: seq<Input>, o: Pubkey)
    ensures var s := Run(Initial(vault, clock), inputs);
      var acc := s.pool.launch.accRewardPerWeight;
      Step(s.pool, Claim(o), s.clock).Ok? <==>
        && o in s.pool.positions
        && s.pool.positions[o].weight * acc <= U128_MAX
        && 0 < Owed(s.pool.positions[o], acc) <= s.pool.launch.rewardReserve
  {
    EveryRunIsSound(vault, clock, inputs);
    hide Run, Sum, Credits, Bookkept, VaultBacked, DustBalanced, EntryDustBounded;
    var s := Run(Initial(vault, clock), inputs);
    if o in s.pool.positions {
      var q := s.pool.positions[o];
      DebtsArePayable(s, o);
      PendingIsWholeCredit(q.weight, q.rewardDebt, s.pool.launch.accRewardPerWeight);
    }
  }

  /**
   * An unstake succeeds exactly when the lock has ended and the rewards can be paid: taking
   * the weight off the total and the principal out of the vault can never be what fails.
   */
  lemma {:induction false} UnstakeSucceedsExactly(vault: u64, clock: i64, inputs: seq<Input>, o: Pubkey)
    ensures var s := Run(Initial(vault, clock), inputs);
      var acc := s.pool.launch.accRewardPerWeight;
      Step(s.pool, Unstake(o), s.clock).Ok? <==>
        && o in s.pool.positions
        && s.pool.positions[o].unlockTs <= s.clock
        && s.pool.positions[o].weight * acc <= U128_MAX
        && Owed(s.pool.positions[o], acc) <= s.pool.launch.rewardReserve
  {
    EveryRunIsSound(vault, clock, inputs);
    hide Run, Sum, Credits, DustBalanced, EntryDustBounded;
    var s := Run(Initial(vault, clock), inputs);
    if o in s.pool.positions {
      var q := s.pool.positions[o];
      DebtsArePayable(s, o);
      PendingIsWholeCredit(q.weight, q.rewardDebt, s.pool.launch.accRewardPerWeight);
      WeightAtMostTotal(s.pool.positions, o);
    }
  }
}
