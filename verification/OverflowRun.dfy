/** Module Overflow, of every launch in every run of the program, and a run of it that gets there. */
module OverflowRun {
  import opened Types
  import opened Rewards
  import opened Pool
  import H = History
  import opened Lamports
  import opened SolProgram
  import opened SolLaunches
  import opened Overflow
  import opened Scenes
  import opened TightRun

  /** The transactions by which `o` could get a reward, more weight, or its principal out of launch `m`. */
  predicate SettlesIn(ix: Instruction, m: Pubkey, o: Pubkey) {
    (ix.IncreaseTokens? || ix.ClaimRewards? || ix.UnstakeTokens?) && ix.mint == m && ix.owner == o
  }

  lemma SettlingFails(s: State, ix: Instruction, m: Pubkey, o: Pubkey)
    requires m in s.pools && TooLarge(s.pools[m], o) && SettlesIn(ix, m, o)
    ensures Attempt(s, ix).Err?
  {
    TooLargeIsRefused(s.pools[m], StakingOp(s, ix, m).value, s.clock, o);
    hide Step, Move, CleanVaults;
  }

  /**
   * In any state of the program: once the product of a position's weight and its launch's
   * accumulator does not fit 128 bits, the position stays as it is for ever, and no claim, increase
   * or unstake transaction of it ever succeeds.
   */
  lemma {:induction false} StuckForever(s: State, ixs: seq<Instruction>, m: Pubkey, o: Pubkey)
    requires m in s.pools && TooLarge(s.pools[m], o)
    ensures var t := ExecuteAll(s, ixs);
      && m in t.pools && o in t.pools[m].positions && o in s.pools[m].positions
      && t.pools[m].positions[o] == s.pools[m].positions[o]
      && forall ix: Instruction :: SettlesIn(ix, m, o) ==> Attempt(t, ix).Err?
  {
    hide ExecuteAll, SeenAll, H.Run, TooLarge, Attempt;
    var sim := H.Sim(s.pools[m], s.clock, H.NO_BOOKS);
    AllSeenIsMirrored(sim, s, ixs, m);
    TooLargeIsForever(sim, SeenAll(s, ixs, m), o);
    Held(s.pools[m], o);
    var t := ExecuteAll(s, ixs);
    Held(t.pools[m], o);
    forall ix: Instruction | SettlesIn(ix, m, o)
      ensures Attempt(t, ix).Err?
    {
      SettlingFails(t, ix, m, o);
    }
  }

  // ---- A run of the program that ends with a stuck position ----

  /** The fees of the first claim have reached the fee owner. */
  function FeesAtHand(): State {
    State(CONFIG, map[], map[Wallet(9) := LAUNCH_RENT, FeeOwner(0) := RENT + Claimed(BATCH), FeeVault(0) := RENT], map[], 0)
  }

  function OrdinaryRun(): seq<Instruction> {
    [] + [CREATE] + [StakeWeek(1, 1)] + [CLAIM] + [StakeWeek(2, LARGE)] + [Deposit(FeeOwner(0), Claimed(BATCH))] + [CLAIM]
  }

  lemma Created()
    ensures var t := Execute(FeesAtHand(), CREATE);
      && FeesAtHand().pools == map[] && Attempt(FeesAtHand(), CREATE).Ok?
      && Standing(t, Claimed(BATCH), 0, 0) && Follows(t, H.Initial(0, 0))
  {
    hide Seen, Attempt, Execute, Claimed;
    var s := FeesAtHand();
    assert s.cfg == CONFIG && s.pools == map[] && s.clock == 0 && s.wsol == map[];
    Creates(s);
  }

  lemma NextPool(sim: H.Sim, op: Op)
    requires sim.clock == 0 && Step(sim.pool, op, 0).Ok?
    ensures H.Next(sim, H.Do(op)).pool == Step(sim.pool, op, 0).value.pool && H.Next(sim, H.Do(op)).clock == 0
  {
    hide Step, H.Record;
  }

  /** The launch's own run, step by step. */
  lemma OwnSteps() returns (m1: H.Sim, m2: H.Sim, m3: H.Sim, m4: H.Sim)
    ensures m1 == H.Next(H.Initial(0, 0), Join(1, 1)) && m2 == H.Next(m1, H.Do(Apply(BATCH)))
    ensures m3 == H.Next(m2, Join(2, LARGE)) && m4 == H.Next(m3, H.Do(Apply(BATCH)))
    ensures Step(H.Initial(0, 0).pool, Stake(1, 1, 7, 1, true), 0).Ok? && Step(m1.pool, Apply(BATCH), 0).Ok?
    ensures Step(m2.pool, Stake(2, LARGE, 7, LARGE, true), 0).Ok? && Step(m3.pool, Apply(BATCH), 0).Ok?
    ensures m1.clock == m2.clock == m3.clock == 0 && TooLarge(m4.pool, 2)
    ensures 2 in m4.pool.positions && m4.pool.positions[2].amount == LARGE
  {
    hide Step, H.Next, TooLarge;
    OrdinarySteps();
    LastStep();
    var m0 := H.Initial(0, 0);
    NextPool(m0, Stake(1, 1, 7, 1, true));
    m1 := H.Next(m0, Join(1, 1));
    NextPool(m1, Apply(BATCH));
    m2 := H.Next(m1, H.Do(Apply(BATCH)));
    NextPool(m2, Stake(2, LARGE, 7, LARGE, true));
    m3 := H.Next(m2, Join(2, LARGE));
    NextPool(m3, Apply(BATCH));
    m4 := H.Next(m3, H.Do(Apply(BATCH)));
  }

  lemma ProgramFollows() returns (m4: H.Sim)
    ensures Follows(ExecuteAll(FeesAtHand(), OrdinaryRun()), m4) && TooLarge(m4.pool, 2)
    ensures 2 in m4.pool.positions && m4.pool.positions[2].amount == LARGE
  {
    hide Seen, SeenAll, Execute, ExecuteAll, H.Next, H.Initial, Step, Standing, Follows, FeesAtHand, Left, TooLarge, Claimed;
    var s, c := FeesAtHand(), Claimed(BATCH);
    var fees := c - BATCH;
    var m1, m2, m3, last := OwnSteps();
    m4 := last;
    FeeWithinClaim(BATCH);
    Snoc(s, [], CREATE);
    Snoc(s, [] + [CREATE], StakeWeek(1, 1));
    Snoc(s, [] + [CREATE] + [StakeWeek(1, 1)], CLAIM);
    Snoc(s, [] + [CREATE] + [StakeWeek(1, 1)] + [CLAIM], StakeWeek(2, LARGE));
    Snoc(s, [] + [CREATE] + [StakeWeek(1, 1)] + [CLAIM] + [StakeWeek(2, LARGE)], Deposit(FeeOwner(0), c));
    Snoc(s, [] + [CREATE] + [StakeWeek(1, 1)] + [CLAIM] + [StakeWeek(2, LARGE)] + [Deposit(FeeOwner(0), c)], CLAIM);
    NothingDone(s);
    Created();
    var s1 := Execute(s, CREATE);
    StakeFollows(s1, H.Initial(0, 0), 1, 1, c, 0, 0);
    var s2 := Execute(s1, StakeWeek(1, 1));
    ClaimFollows(s2, m1, c, 0, 0);
    var s3 := Execute(s2, CLAIM);
    StakeFollows(s3, m2, 2, LARGE, 0, BATCH, fees);
    var s4 := Execute(s3, StakeWeek(2, LARGE));
    DepositFollows(s4, m3, c, BATCH, fees);
    ClaimFollows(Execute(s4, Deposit(FeeOwner(0), c)), m3, c, BATCH, fees);
  }

  lemma NothingDone(s: State)
    ensures ExecuteAll(s, []) == s
  {
  }

  lemma FeeWithinClaim(batch: nat)
    requires 1 <= batch <= MAX_BATCH
    ensures batch <= Claimed(batch)
  {
  }

  /**
   * Six ordinary transactions, two claims that bring one SOL each among them, leave a staker of
   * 340282366920 units with a product that does not fit: whatever follows, its principal and its
   * rewards stay in the launch.
   */
  lemma OrdinaryRunSticks(ixs: seq<Instruction>)
    ensures FeesAtHand().pools == map[]
    ensures var s := ExecuteAll(FeesAtHand(), OrdinaryRun());
      var t := ExecuteAll(s, ixs);
      && 0 in s.pools && 2 in s.pools[0].positions && s.pools[0].positions[2].amount == LARGE
      && 0 in t.pools && 2 in t.pools[0].positions && t.pools[0].positions[2] == s.pools[0].positions[2]
      && forall ix: Instruction :: SettlesIn(ix, 0, 2) ==> Attempt(t, ix).Err?
  {
    hide ExecuteAll, FeesAtHand, OrdinaryRun, Attempt, TooLarge;
    Created();
    var m4 := ProgramFollows();
    StuckForever(ExecuteAll(FeesAtHand(), OrdinaryRun()), ixs, 0, 2);
  }
}
