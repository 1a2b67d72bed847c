/**
 * One quote-token reward pool of a launch. Its batches are divided by the launch's live total
 * weight, but they are claimed by separate snapshots that remember a weight of their own.
 */
module Quote {
  import opened Types
  import opened Sums
  import opened Rewards
  import opened Pool
  import opened History

  datatype QuoteStake = QuoteStake(recordedWeight: u128, rewardDebt: u128)

  /** The pool's fields, its snapshots, and the balances of the three token accounts around it. */
  datatype QuotePool = QuotePool(
    accRewardPerWeight: u128,
    rewardReserve: u64,
    protocolFeeReserve: u64,
    stakes: map<Pubkey, QuoteStake>,
    rewardVault: u64,
    feeVault: u64,
    feeOwnerAta: u64)

  /**
   * Enroll: initialize_quote_stake. Batch: a quote fee claim for which the Pump programs hand
   * over `collected`. Settle: claim_rewards with quote accounts. SweepFees: the protocol's claim.
   * The three deposits are made by outsiders.
   */
  datatype QuoteOp =
    | Enroll(owner: Pubkey)
    | Batch(collected: u64)
    | Settle(owner: Pubkey)
    | SweepFees
    | DepositRewards(tokens: u64)
    | DepositFees(tokens: u64)
    | DepositAta(tokens: u64)

  datatype QuoteOutcome = QuoteOutcome(quote: QuotePool, paid: u64)

  function ApplyQuoteRewards(q: QuotePool, total: u128, amount: u64): Result<QuotePool> {
    if amount == 0 then Err(NoRewards)
    else if total == 0 then Err(NoActiveStake)
    else
      var increment := Increment(amount, total);
      if increment == 0 then Err(NoRewards)
      else if q.accRewardPerWeight + increment > U128_MAX || q.rewardReserve + amount > U64_MAX then Err(MathOverflow)
      else Ok(q.(accRewardPerWeight := q.accRewardPerWeight + increment, rewardReserve := q.rewardReserve + amount))
  }

  /** Tokens between two accounts of the pool: the second must be able to hold them. */
  function Held(held: u64, amount: u64): Result<u64> {
    if held + amount > U64_MAX then Err(TokenError) else Ok(held + amount)
  }

  function BatchStep(q: QuotePool, total: u128, collected: u64): Result<QuotePool> {
    if total == 0 then Err(NoActiveStake)
    else if q.feeOwnerAta + collected > U64_MAX then Err(ForeignError)
    else if collected == 0 then Err(NoRewards)
    else
      var fee :- ProtocolFee(collected);
      var reward := collected - fee;
      var rewardVault :- Held(q.rewardVault, reward);
      var feeVault :- Held(q.feeVault, fee);
      var feeReserve :- CheckedAdd64(q.protocolFeeReserve, fee);
      ApplyQuoteRewards(q.(rewardVault := rewardVault, feeVault := feeVault, protocolFeeReserve := feeReserve), total, reward)
  }

  function EnrollStep(q: QuotePool, p: Pool, owner: Pubkey): Result<QuotePool> {
    if owner !in p.positions then Err(AccountMissing)
    else if owner in q.stakes then Err(AccountInUse)
    else
      var debt :- RewardDebt(p.positions[owner].weight, q.accRewardPerWeight);
      Ok(q.(stakes := q.stakes[owner := QuoteStake(p.positions[owner].weight, debt)]))
  }

  function SettleStep(q: QuotePool, p: Pool, owner: Pubkey): Result<QuoteOutcome> {
    if owner !in p.positions || owner !in q.stakes then Err(AccountMissing)
    else
      var snapshot := q.stakes[owner];
      var pending :- Pending(snapshot.recordedWeight, snapshot.rewardDebt, q.accRewardPerWeight);
      if q.rewardReserve < pending then Err(InsufficientRewardReserve)
      else if q.rewardVault < pending then Err(TokenError)
      else
        var debt :- RewardDebt(p.positions[owner].weight, q.accRewardPerWeight);
        Ok(QuoteOutcome(
             q.(rewardReserve := q.rewardReserve - pending, rewardVault := q.rewardVault - pending,
             stakes := q.stakes[owner := QuoteStake(p.positions[owner].weight, debt)]),
             pending))
  }

  function SweepStep(q: QuotePool): Result<QuotePool> {
    if q.feeVault == 0 then Err(NoRewards)
    else
      var feeReserve := if q.protocolFeeReserve >= q.feeVault then q.protocolFeeReserve - q.feeVault else 0;
      Ok(q.(feeVault := 0, protocolFeeReserve := feeReserve))
  }

  function QuoteStep(q: QuotePool, p: Pool, op: QuoteOp): Result<QuoteOutcome> {
    match op
    case Enroll(owner) =>
      var next :- EnrollStep(q, p, owner);
      Ok(QuoteOutcome(next, 0))
    case Batch(collected) =>
      var next :- BatchStep(q, p.launch.totalWeightedStake, collected);
      Ok(QuoteOutcome(next, 0))
    case Settle(owner) => SettleStep(q, p, owner)
    case SweepFees =>
      var next :- SweepStep(q);
      Ok(QuoteOutcome(next, q.feeVault))
    case DepositRewards(tokens) =>
      var held :- Held(q.rewardVault, tokens);
      Ok(QuoteOutcome(q.(rewardVault := held), 0))
    case DepositFees(tokens) =>
      var held :- Held(q.feeVault, tokens);
      Ok(QuoteOutcome(q.(feeVault := held), 0))
    case DepositAta(tokens) =>
      var held :- Held(q.feeOwnerAta, tokens);
      Ok(QuoteOutcome(q.(feeOwnerAta := held), 0))
  }

  // ---- Runs ----

  /** One batch: what it brought, what it was divided by, and the weight that could claim it. */
  datatype QuoteEvent = QuoteEvent(amount: nat, total: nat, recorded: int)

  /**
   * `unclaimed` is what the batches brought beyond what they credited to the snapshots; it is
   * negative when snapshots together were credited more than was brought.
   */
  datatype QuoteBooks = QuoteBooks(
    batches: seq<QuoteEvent>,
    unclaimed: int,
    entryDust: nat,
    exitDust: nat,
    reopens: nat,
    checkpoints: map<Pubkey, nat>,
    charged: nat,
    swept: nat,
    outsideRewards: int,
    outsideFees: int)

  /** A launch with its own history, and one quote pool beside it. */
  datatype World = World(sim: Sim, quote: QuotePool, books: QuoteBooks)

  datatype QuoteInput = OnLaunch(input: Input) | OnQuote(op: QuoteOp)

  /** A new quote pool next to launch history `sim`; its token accounts may already hold something. */
  function Created(sim: Sim, rewardVault: u64, feeVault: u64, feeOwnerAta: u64): World {
    World(sim, QuotePool(0, 0, 0, map[], rewardVault, feeVault, feeOwnerAta),
          QuoteBooks([], 0, 0, 0, 0, map[], 0, 0, rewardVault, feeVault))
  }

  ghost function RecordedWeights(stakes: map<Pubkey, QuoteStake>): map<Pubkey, int> {
    map o | o in stakes :: stakes[o].recordedWeight
  }

  ghost function QuoteCredits(stakes: map<Pubkey, QuoteStake>, acc: int): map<Pubkey, int> {
    map o | o in stakes :: Credit(stakes[o].recordedWeight, stakes[o].rewardDebt, acc)
  }

  ghost function QuoteOwed(stakes: map<Pubkey, QuoteStake>, acc: nat): map<Pubkey, int> {
    map o | o in stakes :: stakes[o].recordedWeight * acc / PRECISION - stakes[o].rewardDebt
  }

  function FeeOfBatch(collected: u64): nat {
    match ProtocolFee(collected)
    case Ok(fee) => fee
    case Err(_) => 0
  }

  ghost function RecordBatch(b: QuoteBooks, q: QuotePool, total: nat, collected: u64): QuoteBooks {
    var fee := FeeOfBatch(collected);
    var recorded := Sum(RecordedWeights(q.stakes));
    var amount := if fee <= collected then collected - fee else 0;
    var credited := if total > 0 then Increment(amount, total) * recorded else 0;
    b.(batches := b.batches + [QuoteEvent(amount, total, recorded)],
    unclaimed := b.unclaimed + amount * PRECISION - credited,
    charged := b.charged + fee)
  }

  function RecordedOf(q: QuotePool, owner: Pubkey): nat {
    if owner in q.stakes then q.stakes[owner].recordedWeight else 0
  }

  /** A snapshot that settles at an unchanged weight neither gains nor forfeits a fraction. */
  function RecordSnapshot(b: QuoteBooks, acc: nat, owner: Pubkey, prior: nat, weight: nat): QuoteBooks {
    if prior == weight then
      b.(checkpoints := b.checkpoints[owner := acc])
    else
      b.(checkpoints := b.checkpoints[owner := acc],
      exitDust := b.exitDust + Dust(prior, acc),
      entryDust := b.entryDust + Dust(weight, acc),
      reopens := b.reopens + if acc > 0 then 1 else 0)
  }

  ghost function QuoteRecord(b: QuoteBooks, q: QuotePool, p: Pool, op: QuoteOp): QuoteBooks {
    match op
    case Enroll(owner) => RecordSnapshot(b, q.accRewardPerWeight, owner, 0, WeightOf(p, owner))
    case Batch(collected) => RecordBatch(b, q, p.launch.totalWeightedStake, collected)
    case Settle(owner) => RecordSnapshot(b, q.accRewardPerWeight, owner, RecordedOf(q, owner), WeightOf(p, owner))
    case SweepFees => b.(swept := b.swept + q.feeVault)
    case DepositRewards(tokens) => b.(outsideRewards := b.outsideRewards + tokens)
    case DepositFees(tokens) => b.(outsideFees := b.outsideFees + tokens)
    case DepositAta(_) => b
  }

  ghost function QuoteNext(w: World, input: QuoteInput): World {
    match input
    case OnLaunch(i) => w.(sim := Next(w.sim, i))
    case OnQuote(op) =>
      match QuoteStep(w.quote, w.sim.pool, op)
      case Err(_) => w
      case Ok(out) => World(w.sim, out.quote, QuoteRecord(w.books, w.quote, w.sim.pool, op))
  }

  ghost function QuoteRun(w: World, inputs: seq<QuoteInput>): World
    decreases |inputs|
  {
    if inputs == [] then w else QuoteNext(QuoteRun(w, inputs[..|inputs| - 1]), inputs[|inputs| - 1])
  }
}
