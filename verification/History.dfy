/**
 * Runs of one launch, with the bookkeeping the run-level theorems speak about.
 *
 * The books only observe: `Run` performs exactly the steps of module Pool, and a failed
 * step changes neither the pool nor the books.
 */
module History {
  import opened Types
  import opened Rewards
  import opened Pool

  /** One successful batch of rewards and the total weight it was divided by. */
  datatype Event = Event(amount: nat, total: nat)

  /** One finished episode of a position, from its opening stake to its unstake. */
  datatype Closing = Closing(owner: Pubkey, deposited: nat, returned: int, commitments: seq<int>, at: int)

  /**
   * entryDust: credit granted because a debt is rounded down when weight is opened.
   * exitDust: credit forfeited because a payout is rounded down when weight is closed.
   * applyDust: rewards that no weight was credited with, because increments are rounded down.
   * restakes: successful stake and increase_stake calls made at a non-zero accumulator.
   * checkpoints: for each position, the accumulator its debt was last computed at.
   */
  datatype Books = Books(
    events: seq<Event>,
    paid: nat,
    entryDust: nat,
    exitDust: nat,
    applyDust: nat,
    restakes: nat,
    checkpoints: map<Pubkey, nat>,
    deposited: map<Pubkey, nat>,
    commitments: map<Pubkey, seq<int>>,
    closings: seq<Closing>,
    outsideTokens: nat)

  const NO_BOOKS := Books([], 0, 0, 0, 0, 0, map[], map[], map[], [], 0)

  datatype Sim = Sim(pool: Pool, clock: i64, books: Books)

  /** Either the clock moves, or one step is attempted. The clock never moves backwards. */
  datatype Input = Tick(ts: i64) | Do(op: Op)

  function Initial(vault: u64, clock: i64): Sim {
    Sim(Pool(EMPTY_LAUNCH, map[], vault), clock, NO_BOOKS.(outsideTokens := vault))
  }

  function WeightOf(p: Pool, owner: Pubkey): nat {
    if owner in p.positions then p.positions[owner].weight else 0
  }

  function AmountOf(p: Pool, owner: Pubkey): nat {
    if owner in p.positions then p.positions[owner].amount else 0
  }

  /** The part of a unit that weight * acc leaves over. */
  function Dust(weight: nat, acc: nat): nat {
    weight * acc % PRECISION
  }

  function Seq<T>(m: map<Pubkey, seq<T>>, k: Pubkey): seq<T> {
    if k in m then m[k] else []
  }

  function RecordApply(b: Books, l: LaunchConfig, amount: nat): Books {
    b.(events := b.events + [Event(amount, l.totalWeightedStake)],
    applyDust := b.applyDust + if l.totalWeightedStake == 0 then 0 else amount * PRECISION % l.totalWeightedStake)
  }

  /** Weight (re)opened by a stake or an increase at the current accumulator. */
  function RecordEntry(b: Books, acc: nat, owner: Pubkey, weight: nat, amount: nat, commitment: int): Books {
    b.(entryDust := b.entryDust + Dust(weight, acc),
    restakes := b.restakes + if acc > 0 then 1 else 0,
    checkpoints := b.checkpoints[owner := acc],
    deposited := b.deposited[owner := (if owner in b.deposited then b.deposited[owner] else 0) + amount],
    commitments := b.commitments[owner := Seq(b.commitments, owner) + [commitment]])
  }

  /** Weight settled and closed by an increase or an unstake. */
  function RecordExit(b: Books, acc: nat, weight: nat, paid: nat): Books {
    b.(exitDust := b.exitDust + Dust(weight, acc), paid := b.paid + paid)
  }

  function RecordClosing(b: Books, owner: Pubkey, returned: int, now: int): Books {
    b.(checkpoints := b.checkpoints - {owner},
    deposited := b.deposited - {owner},
    commitments := b.commitments - {owner},
    closings := b.closings
                + [Closing(owner, if owner in b.deposited then b.deposited[owner] else 0, returned,
                           Seq(b.commitments, owner), now)])
  }

  /** The books after the successful step `op` from pool `p` at time `now`. */
  function Record(b: Books, p: Pool, op: Op, now: int, out: Outcome): Books {
    var acc := p.launch.accRewardPerWeight;
    match op
    case Apply(amount) => RecordApply(b, p.launch, amount)
    case Stake(owner, amount, lockDays, _, _) =>
      RecordEntry(b, acc, owner, WeightOf(out.pool, owner), amount, now + lockDays * 86_400)
    case Increase(owner, amount, lockDays, _, _) =>
      RecordEntry(RecordExit(b, acc, WeightOf(p, owner), out.paid), acc, owner, WeightOf(out.pool, owner),
                  amount, now + lockDays * 86_400)
    case Claim(owner) => b.(paid := b.paid + out.paid, checkpoints := b.checkpoints[owner := acc])
    case Unstake(owner) =>
      RecordClosing(RecordExit(b, acc, WeightOf(p, owner), out.paid), owner, p.vault - out.pool.vault, now)
    case VaultDeposit(tokens) => b.(outsideTokens := b.outsideTokens + tokens)
  }

  function Next(s: Sim, input: Input): Sim {
    match input
    case Tick(ts) => if s.clock <= ts then s.(clock := ts) else s
    case Do(op) =>
      match Step(s.pool, op, s.clock)
      case Err(_) => s
      case Ok(out) => Sim(out.pool, s.clock, Record(s.books, s.pool, op, s.clock, out))
  }

  function Run(s: Sim, inputs: seq<Input>): Sim
    decreases |inputs|
  {
    if inputs == [] then s else Next(Run(s, inputs[..|inputs| - 1]), inputs[|inputs| - 1])
  }
}
