/**
 * The reward program without its accumulator trick: a ledger that visits every position on
 * every batch. The stored accumulator and debts are proved to be a faithful encoding of it.
 */
module NaiveLedger {
  import opened Types
  import opened Rewards
  import opened Sums
  import opened Pool
  import opened Positions
  import opened History
  import opened Solvency
  import opened Accrual

  /** One staker's account: tokens, weight, and credit in units of 1 / PRECISION. */
  datatype Account = Account(amount: int, weight: int, credit: int)

  /** `index` is only used to give joining weight its rounded-off fraction of a unit. */
  datatype Naive = Naive(index: int, accounts: map<Pubkey, Account>)

  ghost function TotalWeight(n: Naive): int {
    Sum(AccountWeights(n.accounts))
  }

  ghost function AccountWeights(accounts: map<Pubkey, Account>): map<Pubkey, int> {
    map o | o in accounts :: accounts[o].weight
  }

  /** Credit every account with its weight times the increment. */
  ghost function Distribute(n: Naive, increment: int): Naive {
    Naive(n.index + increment,
          map o | o in n.accounts :: n.accounts[o].(credit := n.accounts[o].credit + n.accounts[o].weight * increment))
  }

  function Fresh(n: Naive, amount: int, lockDays: nat): Account {
    Account(amount, Weighted(amount, lockDays), Weighted(amount, lockDays) * n.index % PRECISION)
  }

  function Whole(a: Account): int {
    a.credit / PRECISION
  }

  /** The ledger after one accepted step, and what the step pays its caller. */
  ghost function NaiveStep(n: Naive, op: Op): (Naive, int) {
    match op
    case Apply(amount) => (NaiveBatch(n, amount), 0)
    case Stake(o, amount, lockDays, _, _) => (SetAccount(n, o, Fresh(n, amount, lockDays)), 0)
    case Increase(o, amount, lockDays, _, _) =>
      var a := AccountOf(n, o);
      (SetAccount(n, o, Fresh(n, a.amount + amount, lockDays)), Whole(a))
    case Claim(o) =>
      var a := AccountOf(n, o);
      (SetAccount(n, o, a.(credit := a.credit % PRECISION)), Whole(a))
    case Unstake(o) => (Naive(n.index, n.accounts - {o}), Whole(AccountOf(n, o)))
    case VaultDeposit(_) => (n, 0)
  }

  ghost function NaiveBatch(n: Naive, amount: nat): Naive {
    if TotalWeight(n) > 0 then Distribute(n, Increment(amount, TotalWeight(n))) else n
  }

  function SetAccount(n: Naive, o: Pubkey, a: Account): Naive {
    Naive(n.index, n.accounts[o := a])
  }

  function AccountOf(n: Naive, o: Pubkey): Account {
    if o in n.accounts then n.accounts[o] else Account(0, 0, 0)
  }

  /** The ledger that a pool's accumulator and debts stand for. */
  ghost function Decode(p: Pool): Naive {
    Naive(p.launch.accRewardPerWeight, DecodeAll(p.positions, p.launch.accRewardPerWeight))
  }

  ghost function DecodeAll(ps: Positions, acc: int): map<Pubkey, Account> {
    map o | o in ps :: DecodePosition(ps[o], acc)
  }

  ghost function DecodePosition(q: StakePosition, acc: int): Account {
    Account(q.amount, q.weight, Credit(q.weight, q.rewardDebt, acc))
  }

  lemma DecodeSet(ps: Positions, o: Pubkey, q: StakePosition, acc: int)
    ensures DecodeAll(ps[o := q], acc) == DecodeAll(ps, acc)[o := DecodePosition(q, acc)]
  {
  }

  lemma DecodeDrop(ps: Positions, o: Pubkey, acc: int)
    ensures DecodeAll(ps - {o}, acc) == DecodeAll(ps, acc) - {o}
  {
  }

  lemma DecodeRaise(p: Pool, increment: nat)
    ensures Distribute(Decode(p), increment).accounts
         == DecodeAll(p.positions, p.launch.accRewardPerWeight + increment)
  {
    forall o | o in p.positions
      ensures p.positions[o].weight * (p.launch.accRewardPerWeight + increment)
           == p.positions[o].weight * p.launch.accRewardPerWeight + p.positions[o].weight * increment
    {
    }
  }

  lemma DecodedTotal(p: Pool)
    ensures TotalWeight(Decode(p)) == Sum(Weights(p.positions))
  {
    assert AccountWeights(Decode(p).accounts) == Weights(p.positions);
  }

  lemma RaisedPool(p: Pool, t: Pool, increment: nat)
    requires t.positions == p.positions
    requires t.launch.accRewardPerWeight == p.launch.accRewardPerWeight + increment
    ensures Distribute(Decode(p), increment) == Decode(t)
  {
    DecodeRaise(p, increment);
  }

  lemma BatchIsDistribution(s: Sim, amount: u64)
    requires Bookkept(s.pool) && Step(s.pool, Apply(amount), s.clock).Ok?
    ensures NaiveBatch(Decode(s.pool), amount) == Decode(Next(s, Do(Apply(amount))).pool)
  {
    DecodedTotal(s.pool);
    BatchEffect(s, amount);
    RaisedPool(s.pool, Next(s, Do(Apply(amount))).pool, Increment(amount, s.pool.launch.totalWeightedStake));
  }

  lemma StakeIsFresh(s: Sim, op: Op)
    requires op.Stake? && Step(s.pool, op, s.clock).Ok?
    ensures SetAccount(Decode(s.pool), op.owner, Fresh(Decode(s.pool), op.amount, op.lockDays))
         == Decode(Next(s, Do(op)).pool)
  {
    var q, _ := StakeOpens(s, op);
    DecodeSet(s.pool.positions, op.owner, q, s.pool.launch.accRewardPerWeight);
  }

  /** The position a stake opens, in terms of the ledger's own account. */
  lemma StakeOpens(s: Sim, op: Op) returns (q: StakePosition, a: Account)
    requires op.Stake? && Step(s.pool, op, s.clock).Ok?
    ensures var t := Next(s, Do(op));
      && t.pool.positions == s.pool.positions[op.owner := q]
      && t.pool.launch.accRewardPerWeight == s.pool.launch.accRewardPerWeight
      && a == Fresh(Decode(s.pool), op.amount, op.lockDays)
      && DecodePosition(q, s.pool.launch.accRewardPerWeight) == a
  {
    var l := s.pool.launch;
    var multiplier := LockMultiplier(op.lockDays).value;
    var unlockTs := UnlockTime(s.clock, op.lockDays).value;
    OpenedIsSettled(l, op.amount, op.lockDays, multiplier, unlockTs);
    q := Opened(l, op.amount, multiplier, unlockTs).value;
    a := Fresh(Decode(s.pool), op.amount, op.lockDays);
  }

  lemma IncreaseIsFresh(s: Sim, op: Op)
    requires DebtsFromThePast(s) && op.Increase? && Step(s.pool, op, s.clock).Ok?
    ensures var a := AccountOf(Decode(s.pool), op.owner);
      && SetAccount(Decode(s.pool), op.owner, Fresh(Decode(s.pool), a.amount + op.amount, op.lockDays))
         == Decode(Next(s, Do(op)).pool)
      && Whole(a) == Step(s.pool, op, s.clock).value.paid
  {
    var q := IncreaseOpens(s, op);
    hide Step, Next, Fresh, Credit, Weighted, DebtsFromThePast;
    DecodeSet(s.pool.positions, op.owner, q, s.pool.launch.accRewardPerWeight);
  }

  lemma IncreaseOpens(s: Sim, op: Op) returns (q: StakePosition)
    requires DebtsFromThePast(s) && op.Increase? && Step(s.pool, op, s.clock).Ok?
    ensures op.owner in s.pool.positions
    ensures var t := Next(s, Do(op));
      var prior := s.pool.positions[op.owner];
      var acc := s.pool.launch.accRewardPerWeight;
      && t.pool.positions == s.pool.positions[op.owner := q]
      && t.pool.launch.accRewardPerWeight == acc
      && DecodePosition(q, acc) == Fresh(Decode(s.pool), prior.amount + op.amount, op.lockDays)
      && Step(s.pool, op, s.clock).value.paid == Credit(prior.weight, prior.rewardDebt, acc) / PRECISION
  {
    var l := s.pool.launch;
    var prior := s.pool.positions[op.owner];
    DebtsArePayable(s, op.owner);
    PendingIsWholeCredit(prior.weight, prior.rewardDebt, l.accRewardPerWeight);
    var paid := Pending(prior.weight, prior.rewardDebt, l.accRewardPerWeight).value;
    var multiplier := LockMultiplier(op.lockDays).value;
    var unlockTs := UnlockTime(s.clock, op.lockDays).value;
    var settled := l.(rewardReserve := l.rewardReserve - paid);
    OpenedIsSettled(settled, prior.amount + op.amount, op.lockDays, multiplier, unlockTs);
    q := Opened(settled, prior.amount + op.amount, multiplier, unlockTs).value;
  }

  lemma ClaimIsWhole(s: Sim, o: Pubkey)
    requires Sound(s) && Step(s.pool, Claim(o), s.clock).Ok?
    ensures var a := AccountOf(Decode(s.pool), o);
      && SetAccount(Decode(s.pool), o, a.(credit := a.credit % PRECISION)) == Decode(Next(s, Do(Claim(o))).pool)
      && Whole(a) == Step(s.pool, Claim(o), s.clock).value.paid
  {
    var q := s.pool.positions[o];
    var acc := s.pool.launch.accRewardPerWeight;
    DebtsArePayable(s, o);
    PendingIsWholeCredit(q.weight, q.rewardDebt, acc);
    SettledCredit(q.weight, acc);
    HolderClaims(s, o);
    DecodeSet(s.pool.positions, o, q.(rewardDebt := q.weight * acc / PRECISION), acc);
  }

  lemma UnstakeIsWhole(s: Sim, o: Pubkey)
    requires DebtsFromThePast(s) && Step(s.pool, Unstake(o), s.clock).Ok?
    ensures Naive(Decode(s.pool).index, Decode(s.pool).accounts - {o}) == Decode(Next(s, Do(Unstake(o))).pool)
    ensures Whole(AccountOf(Decode(s.pool), o)) == Step(s.pool, Unstake(o), s.clock).value.paid
  {
    var q := s.pool.positions[o];
    DebtsArePayable(s, o);
    PendingIsWholeCredit(q.weight, q.rewardDebt, s.pool.launch.accRewardPerWeight);
    DecodeDrop(s.pool.positions, o, s.pool.launch.accRewardPerWeight);
  }

  /** Joining and depositing pays nobody, and a deposit touches no account. */
  lemma NothingPaid(s: Sim, op: Op)
    requires Step(s.pool, op, s.clock).Ok? && (op.Apply? || op.Stake? || op.VaultDeposit?)
    ensures Step(s.pool, op, s.clock).value.paid == 0
    ensures op.VaultDeposit? ==> Decode(Next(s, Do(op)).pool) == Decode(s.pool)
  {
  }

  lemma SoundParts(s: Sim)
    requires Sound(s)
    ensures Bookkept(s.pool) && DebtsFromThePast(s)
  {
  }

  /** Every accepted step is a step of the naive ledger and pays the same. */
  lemma {:induction false} StepRefines(s: Sim, op: Op)
    requires Sound(s) && Step(s.pool, op, s.clock).Ok?
    ensures NaiveStep(Decode(s.pool), op) == (Decode(Next(s, Do(op)).pool), Step(s.pool, op, s.clock).value.paid)
  {
    hide Step, Next, Decode, Fresh, Sound, Bookkept, DebtsFromThePast, NaiveBatch, SetAccount, AccountOf, Whole;
    SoundParts(s);
    match op
    case Apply(amount) =>
      BatchIsDistribution(s, amount);
      NothingPaid(s, op);
    case Stake(_, _, _, _, _) =>
      StakeIsFresh(s, op);
      NothingPaid(s, op);
    case Increase(_, _, _, _, _) => IncreaseIsFresh(s, op);
    case Claim(o) => ClaimIsWhole(s, o);
    case Unstake(o) => UnstakeIsWhole(s, o);
    case VaultDeposit(_) => NothingPaid(s, op);
  }

  /** The steps of a run that were accepted, in order. */
  function Accepted(s: Sim, inputs: seq<Input>): seq<Op>
    decreases |inputs|
  {
    if inputs == [] then []
    else
      var front, last := inputs[..|inputs| - 1], inputs[|inputs| - 1];
      Accepted(s, front) + AcceptedNow(Run(s, front), last)
  }

  function AcceptedNow(s: Sim, input: Input): seq<Op> {
    if input.Do? && Step(s.pool, input.op, s.clock).Ok? then [input.op] else []
  }

  /** What the naive ledger becomes, and all it has paid, over a list of steps. */
  ghost function NaiveRun(n: Naive, ops: seq<Op>): (Naive, int)
    decreases |ops|
  {
    if ops == [] then (n, 0)
    else
      var (m, paid) := NaiveRun(n, ops[..|ops| - 1]);
      var (m', more) := NaiveStep(m, ops[|ops| - 1]);
      (m', paid + more)
  }

  lemma NaiveRunSnoc(n: Naive, ops: seq<Op>, op: Op)
    ensures var (m, paid) := NaiveRun(n, ops);
      var (m', more) := NaiveStep(m, op);
      NaiveRun(n, ops + [op]) == (m', paid + more)
  {
    assert (ops + [op])[..|ops|] == ops;
  }

  lemma PaidIsRecorded(s: Sim, op: Op)
    requires Step(s.pool, op, s.clock).Ok?
    ensures Next(s, Do(op)).books.paid == s.books.paid + Step(s.pool, op, s.clock).value.paid
  {
  }

  /** The naive ledger that has followed a run so far: same credits, same payments. */
  ghost predicate InStep(ops: seq<Op>, s: Sim) {
    NaiveRun(Naive(0, map[]), ops) == (Decode(s.pool), s.books.paid)
  }

  /** One input, accepted or not, keeps the naive ledger in step. */
  lemma InputRefines(s: Sim, input: Input, ops: seq<Op>)
    requires Sound(s) && InStep(ops, s)
    ensures InStep(ops + AcceptedNow(s, input), Next(s, input))
  {
    hide NaiveStep, Decode, Record;
    if input.Do? && Step(s.pool, input.op, s.clock).Ok? {
      StepRefines(s, input.op);
      PaidIsRecorded(s, input.op);
      NaiveRunSnoc(Naive(0, map[]), ops, input.op);
    } else {
      assert ops + [] == ops;
      assert Next(s, input).pool == s.pool && Next(s, input).books == s.books;
    }
  }

  lemma AcceptedSnoc(s: Sim, inputs: seq<Input>)
    requires inputs != []
    ensures var front, last := inputs[..|inputs| - 1], inputs[|inputs| - 1];
      && Accepted(s, inputs) == Accepted(s, front) + AcceptedNow(Run(s, front), last)
      && Run(s, inputs) == Next(Run(s, front), last)
  {
  }

  /** From any sound state a naive ledger is in step with, it stays in step over every run. */
  lemma {:induction false} RunRefines(s: Sim, inputs: seq<Input>, ops: seq<Op>)
    requires Sound(s) && InStep(ops, s)
    ensures InStep(ops + Accepted(s, inputs), Run(s, inputs))
    decreases |inputs|
  {
    hide Sound, InStep, Next;
    if inputs == [] {
      assert ops + [] == ops;
    } else {
      var front, last := inputs[..|inputs| - 1], inputs[|inputs| - 1];
      RunRefines(s, front, ops);
      RunPreserves(s, front);
      InputRefines(Run(s, front), last, ops + Accepted(s, front));
      AcceptedSnoc(s, inputs);
      assert ops + Accepted(s, front) + AcceptedNow(Run(s, front), last) == ops + Accepted(s, inputs);
    }
  }

  /**
   * The constant-time accumulator refines the ledger that loops over everybody: after any run
   * each position's weight * acc - PRECISION * debt is its naive credit, and both have paid
   * out the same.
   */
  lemma {:induction false} AccumulatorRefinesNaiveLedger(vault: u64, clock: i64, inputs: seq<Input>)
    ensures var s := Run(Initial(vault, clock), inputs);
      NaiveRun(Naive(0, map[]), Accepted(Initial(vault, clock), inputs)) == (Decode(s.pool), s.books.paid)
  {
    EveryRunIsSound(vault, clock, []);
    assert Decode(Initial(vault, clock).pool) == Naive(0, map[]);
    RunRefines(Initial(vault, clock), inputs, []);
    assert [] + Accepted(Initial(vault, clock), inputs) == Accepted(Initial(vault, clock), inputs);
  }
}
