/**
 * The results about one launch, stated of every launch in every run of the program, and of what
 * the program's own transactions brought to it, paid out of it and did to its weights.
 */
module LaunchRuns {
  import opened Types
  import opened Sums
  import opened Rewards
  import opened Pool
  import opened History
  import opened Solvency
  import opened Accrual
  import opened Fairness
  import opened Locks
  import N = NaiveLedger
  import O = Overflow
  import opened Lamports
  import opened SolProgram
  import opened Routing
  import opened FeeClaims
  import opened SolRuns
  import opened SolLaunches

  // ---- What one transaction means for a launch ----

  predicate Takes(s: State, ix: Instruction, m: Pubkey) {
    m in s.pools && Attempt(s, ix).Ok?
  }

  /** The share of a fee claim, and the total weight it is divided by. */
  function BatchOf(s: State, ix: Instruction, m: Pubkey): seq<Event> {
    if Takes(s, ix, m) && ShareIn(s, ix, m) > 0 then
      [Event(ShareIn(s, ix, m), s.pools[m].launch.totalWeightedStake)]
    else
      []
  }

  /** One, when a stake or an increase succeeds on `m` at a non-zero accumulator. */
  function RestakeOf(s: State, ix: Instruction, m: Pubkey): nat {
    if Takes(s, ix, m) && (ix.StakeTokens? || ix.IncreaseTokens?) && ix.mint == m
       && s.pools[m].launch.accRewardPerWeight > 0 then 1 else 0
  }

  predicate Pays(s: State, ix: Instruction, m: Pubkey) {
    Takes(s, ix, m) && (ix.IncreaseTokens? || ix.ClaimRewards? || ix.UnstakeTokens?) && ix.mint == m
  }

  /** What the wallet of `o` gains from a reward payment of launch `m`. */
  function PaidOut(s: State, ix: Instruction, m: Pubkey, o: Pubkey): int {
    if Pays(s, ix, m) && ix.owner == o then
      Balance(Execute(s, ix).lamports, Wallet(o)) - Balance(s.lamports, Wallet(o))
    else
      0
  }

  function PaidBy(s: State, ix: Instruction, m: Pubkey): int {
    if Pays(s, ix, m) then PaidOut(s, ix, m, ix.owner) else 0
  }

  // ---- Totals of a run ----

  function BatchesOf(s: State, ixs: seq<Instruction>, m: Pubkey): seq<Event>
    decreases |ixs|
  {
    if ixs == [] then []
    else
      var front, last := ixs[..|ixs| - 1], ixs[|ixs| - 1];
      BatchesOf(s, front, m) + BatchOf(ExecuteAll(s, front), last, m)
  }

  function RestakesOf(s: State, ixs: seq<Instruction>, m: Pubkey): nat
    decreases |ixs|
  {
    if ixs == [] then 0
    else
      var front, last := ixs[..|ixs| - 1], ixs[|ixs| - 1];
      RestakesOf(s, front, m) + RestakeOf(ExecuteAll(s, front), last, m)
  }

  function AllPaidOut(s: State, ixs: seq<Instruction>, m: Pubkey, o: Pubkey): int
    decreases |ixs|
  {
    if ixs == [] then 0
    else
      var front, last := ixs[..|ixs| - 1], ixs[|ixs| - 1];
      AllPaidOut(s, front, m, o) + PaidOut(ExecuteAll(s, front), last, m, o)
  }

  function AllPaidBy(s: State, ixs: seq<Instruction>, m: Pubkey): int
    decreases |ixs|
  {
    if ixs == [] then 0
    else
      var front, last := ixs[..|ixs| - 1], ixs[|ixs| - 1];
      AllPaidBy(s, front, m) + PaidBy(ExecuteAll(s, front), last, m)
  }

  // ---- The run a launch makes by itself records exactly these ----

  /** `after` extends `before` by what this transaction means for launch `m`. */
  ghost predicate Recorded(before: Sim, after: Sim, s: State, ix: Instruction, m: Pubkey) {
    && after.books.events == before.books.events + BatchOf(s, ix, m)
    && after.books.restakes == before.books.restakes + RestakeOf(s, ix, m)
    && after.books.paid == before.books.paid + PaidBy(s, ix, m)
  }

  lemma WalletGains(s: State, ix: Instruction, m: Pubkey)
    requires Pays(s, ix, m)
    ensures var op := StakingOp(s, ix, m);
      && op.Some? && Step(s.pools[m], op.value, s.clock).Ok?
      && PaidOut(s, ix, m, ix.owner) == Step(s.pools[m], op.value, s.clock).value.paid
  {
    hide Step, Move, CleanVaults;
    var op := StakingOp(s, ix, m).value;
    MoveConserves(s.lamports, Launch(m), Wallet(ix.owner), Step(s.pools[m], op, s.clock).value.paid);
  }

  lemma StakingRecords(sim: Sim, op: Op)
    requires !op.Apply? && Step(sim.pool, op, sim.clock).Ok?
    ensures var after := Next(sim, Do(op)).books;
      && after.events == sim.books.events
      && after.restakes == sim.books.restakes
                           + (if (op.Stake? || op.Increase?) && sim.pool.launch.accRewardPerWeight > 0 then 1 else 0)
      && after.paid == sim.books.paid + Step(sim.pool, op, sim.clock).value.paid
    ensures op.Stake? || op.VaultDeposit? ==> Step(sim.pool, op, sim.clock).value.paid == 0
  {
  }

  lemma StakingIsRecorded(sim: Sim, s: State, ix: Instruction, m: Pubkey)
    requires Mirrors(sim, s, m) && Attempt(s, ix).Ok? && StakingOp(s, ix, m).Some?
    ensures Recorded(sim, Next(sim, Do(StakingOp(s, ix, m).value)), s, ix, m)
  {
    StakingIsSeen(sim, s, ix, m);
    StakingRecords(sim, StakingOp(s, ix, m).value);
    if Pays(s, ix, m) {
      WalletGains(s, ix, m);
    }
    NoClaimNoShare(s, ix, m);
    hide Step, Next, Attempt, PaidOut, CleanVaults, ShareIn;
  }

  lemma ShareIsRecorded(sim: Sim, share: u64)
    requires Step(sim.pool, Apply(share), sim.clock).Ok?
    ensures var after := Next(sim, Do(Apply(share))).books;
      && after.events == sim.books.events + [Event(share, sim.pool.launch.totalWeightedStake)]
      && after.restakes == sim.books.restakes && after.paid == sim.books.paid
  {
  }

  lemma ClaimIsRecorded(sim: Sim, s: State, ix: Instruction, m: Pubkey)
    requires Mirrors(sim, s, m) && Attempt(s, ix).Ok? && IsFeeClaim(ix)
    ensures Recorded(sim, Run(sim, Seen(s, ix, m)), s, ix, m)
  {
    hide Attempt, Next, ShareIn;
    assert Run(sim, []) == sim;
    ClaimIsSeen(sim, s, ix, m);
    if ShareIn(s, ix, m) > 0 {
      ClaimedShareApplies(sim, s, ix, m);
      RunOne(sim, Do(Apply(ShareIn(s, ix, m))));
      ShareIsRecorded(sim, ShareIn(s, ix, m));
    }
  }

  lemma NothingIsRecorded(sim: Sim, s: State, ix: Instruction, m: Pubkey)
    requires Mirrors(sim, s, m)
    requires Attempt(s, ix).Err? || (!IsFeeClaim(ix) && StakingOp(s, ix, m).None?)
    ensures Recorded(sim, Run(sim, Seen(s, ix, m)), s, ix, m)
  {
    if !IsFeeClaim(ix) {
      NoClaimNoShare(s, ix, m);
    }
    hide Attempt, ShareIn, CleanVaults;
    assert Run(sim, []) == sim;
    if ix.AdvanceClock? {
      RunOne(sim, Tick(ix.ts));
    }
  }

  /** What launch `m` sees of a transaction leaves in its own books what the transaction meant. */
  lemma SeenIsRecorded(sim: Sim, s: State, ix: Instruction, m: Pubkey)
    requires Mirrors(sim, s, m)
    ensures Recorded(sim, Run(sim, Seen(s, ix, m)), s, ix, m)
  {
    hide Attempt, ShareIn, Next, Recorded, CleanVaults;
    if Attempt(s, ix).Ok? && StakingOp(s, ix, m).Some? {
      RunOne(sim, Do(StakingOp(s, ix, m).value));
      StakingIsRecorded(sim, s, ix, m);
    } else if Attempt(s, ix).Ok? && IsFeeClaim(ix) {
      ClaimIsRecorded(sim, s, ix, m);
    } else {
      NothingIsRecorded(sim, s, ix, m);
    }
  }

  lemma ClaimedShareApplies(sim: Sim, s: State, ix: Instruction, m: Pubkey)
    requires Mirrors(sim, s, m) && Attempt(s, ix).Ok? && IsFeeClaim(ix) && ShareIn(s, ix, m) > 0
    ensures ShareIn(s, ix, m) <= U64_MAX && Step(sim.pool, Apply(ShareIn(s, ix, m)), sim.clock).Ok?
  {
    hide Attempt, ShareOf, PoolTookShare, ClaimedAmount;
    FeeClaimShares(s, ix);
    ShareIsSeen(s.pools[m], Attempt(s, ix).value.pools[m], ShareIn(s, ix, m), sim);
  }

  /** From any state in which `m` exists, what it sees is recorded, transaction by transaction. */
  lemma {:induction false} AllSeenIsRecorded(sim: Sim, s: State, ixs: seq<Instruction>, m: Pubkey)
    requires Mirrors(sim, s, m)
    ensures var after := Run(sim, SeenAll(s, ixs, m)).books;
      && after.events == sim.books.events + BatchesOf(s, ixs, m)
      && after.restakes == sim.books.restakes + RestakesOf(s, ixs, m)
      && after.paid == sim.books.paid + AllPaidBy(s, ixs, m)
    decreases |ixs|
  {
    hide Mirrors, Execute, Seen, BatchOf, RestakeOf, PaidBy;
    if ixs == [] {
      assert Run(sim, []) == sim;
    } else {
      var front, last := ixs[..|ixs| - 1], ixs[|ixs| - 1];
      AllSeenIsRecorded(sim, s, front, m);
      AllSeenIsMirrored(sim, s, front, m);
      SeenIsRecorded(Run(sim, SeenAll(s, front, m)), ExecuteAll(s, front), last, m);
      RunConcat(sim, SeenAll(s, front, m), Seen(ExecuteAll(s, front), last, m));
    }
  }

  /** The same from the creation of the launch on. */
  lemma {:induction false} OwnRunRecords(s: State, ixs: seq<Instruction>, m: Pubkey)
    requires s.pools == map[]
    ensures m in ExecuteAll(s, ixs).pools ==>
              var books := OwnRun(s, ixs, m).books;
              && books.events == BatchesOf(s, ixs, m)
              && books.restakes == RestakesOf(s, ixs, m)
              && books.paid == AllPaidBy(s, ixs, m)
    ensures m !in ExecuteAll(s, ixs).pools ==>
              BatchesOf(s, ixs, m) == [] && RestakesOf(s, ixs, m) == 0 && AllPaidBy(s, ixs, m) == 0
    decreases |ixs|
  {
    hide Execute, Seen, Mirrors, BatchOf, RestakeOf, PaidBy, Initial;
    if ixs != [] {
      var front, last := ixs[..|ixs| - 1], ixs[|ixs| - 1];
      var before := ExecuteAll(s, front);
      OwnRunRecords(s, front, m);
      LaunchesAfter(before, last);
      if m in before.pools {
        AlreadyThere(before, last, m);
        var (vault, start) := Origin(s, ixs, m);
        EveryLaunchIsItsOwnRun(s, front, m);
        SeenIsRecorded(OwnRun(s, front, m), before, last, m);
        RunConcat(Initial(vault, start), SeenAll(s, front, m), Seen(before, last, m));
      } else {
        NothingMeant(before, last, m);
        NotYetThere(before, last, m);
        NothingSeenBefore(s, front, m);
        FreshBooks(Origin(s, ixs, m).0, Origin(s, ixs, m).1);
      }
    }
  }

  lemma NothingMeant(s: State, ix: Instruction, m: Pubkey)
    requires m !in s.pools
    ensures BatchOf(s, ix, m) == [] && RestakeOf(s, ix, m) == 0 && PaidBy(s, ix, m) == 0
  {
  }

  lemma FreshBooks(vault: u64, start: i64)
    ensures Run(Initial(vault, start), []).books.events == []
    ensures Run(Initial(vault, start), []).books.restakes == 0 && Run(Initial(vault, start), []).books.paid == 0
  {
  }

  // ---- The results ----

  /**
   * For every launch, the main one and the claimed one included: the accumulator is the sum of the
   * increments of all the shares ever routed to it, and its reserve is all those shares less
   * every lamport its stakers' wallets were ever paid.
   */
  lemma {:induction false} ReserveIsRoutedLessPaid(s: State, ixs: seq<Instruction>, m: Pubkey)
    requires s.pools == map[] && m in ExecuteAll(s, ixs).pools
    ensures var l := ExecuteAll(s, ixs).pools[m].launch;
      && RealBatches(BatchesOf(s, ixs, m))
      && l.accRewardPerWeight == Accumulated(BatchesOf(s, ixs, m))
      && l.rewardReserve + AllPaidBy(s, ixs, m) == Applied(BatchesOf(s, ixs, m))
  {
    EveryLaunchIsItsOwnRun(s, ixs, m);
    OwnRunRecords(s, ixs, m);
    OwnRunIsSound(s, ixs, m);
    hide OwnRun, ExecuteAll, BatchesOf, AllPaidBy, Sound, PromisesKept, Accumulated, Applied;
  }

  /**
   * Bounded solvency of every launch, with K the number of its stake and increase transactions
   * that succeeded at a non-zero accumulator.
   */
  lemma {:induction false} EveryLaunchIsBounded(s: State, ixs: seq<Instruction>, m: Pubkey)
    requires s.pools == map[] && m in ExecuteAll(s, ixs).pools
    ensures var p := ExecuteAll(s, ixs).pools[m];
      var acc := p.launch.accRewardPerWeight;
      var owed := Sum(AllOwed(p.positions, acc));
      var k := RestakesOf(s, ixs, m);
      && Sum(Credits(p.positions, acc)) <= PRECISION * p.launch.rewardReserve + (PRECISION - 1) * k
      && (k == 0 ==> owed <= p.launch.rewardReserve)
      && (k > 0 ==> owed <= p.launch.rewardReserve + k - 1)
  {
    EveryLaunchIsItsOwnRun(s, ixs, m);
    OwnRunRecords(s, ixs, m);
    var (vault, start) := Origin(s, ixs, m);
    BoundedSolvency(vault, start, SeenAll(s, ixs, m));
    hide Run, Initial, ExecuteAll, RestakesOf, Sum, Credits, AllOwed, Origin, SeenAll, BatchesOf, AllPaidBy;
  }

  // ---- Fairness, and locks, between any two moments ----

  /** `o` holds on in launch `m`: no increase and no unstake of its succeeds there. */
  predicate Holds(s: State, ix: Instruction, m: Pubkey, o: Pubkey) {
    (ix.IncreaseTokens? || ix.UnstakeTokens?) && ix.mint == m && ix.owner == o ==> Attempt(s, ix).Err?
  }

  predicate AllHold(s: State, ixs: seq<Instruction>, m: Pubkey, o: Pubkey)
    decreases |ixs|
  {
    ixs != [] ==>
      && AllHold(s, ixs[..|ixs| - 1], m, o)
      && Holds(ExecuteAll(s, ixs[..|ixs| - 1]), ixs[|ixs| - 1], m, o)
  }

  lemma HoldingIsSeen(sim: Sim, s: State, ix: Instruction, m: Pubkey, o: Pubkey)
    requires Mirrors(sim, s, m) && Holds(s, ix, m, o)
    ensures AllHoldOn(sim, Seen(s, ix, m), o)
    ensures Received(sim, Seen(s, ix, m), o) == PaidOut(s, ix, m, o)
  {
    hide Step, Attempt, ShareIn, CleanVaults;
    var inputs := Seen(s, ix, m);
    assert |inputs| <= 1;
    assert Received(sim, [], o) == 0 && AllHoldOn(sim, [], o);
    if Pays(s, ix, m) {
      WalletGains(s, ix, m);
    }
    if inputs != [] {
      assert inputs[..|inputs| - 1] == [] && Run(sim, []) == sim;
    }
  }

  lemma {:induction false} HoldConcat(sim: Sim, xs: seq<Input>, ys: seq<Input>, o: Pubkey)
    ensures AllHoldOn(sim, xs + ys, o) <==> AllHoldOn(sim, xs, o) && AllHoldOn(Run(sim, xs), ys, o)
    ensures Received(sim, xs + ys, o) == Received(sim, xs, o) + Received(Run(sim, xs), ys, o)
    decreases |ys|
  {
    hide HoldsOn, PaidTo, Next;
    if ys == [] {
      assert xs + ys == xs;
    } else {
      assert (xs + ys)[..|xs + ys| - 1] == xs + ys[..|ys| - 1];
      HoldConcat(sim, xs, ys[..|ys| - 1], o);
      RunConcat(sim, xs, ys[..|ys| - 1]);
    }
  }

  lemma {:induction false} AllHoldingIsSeen(sim: Sim, s: State, ixs: seq<Instruction>, m: Pubkey, o: Pubkey)
    requires Mirrors(sim, s, m) && AllHold(s, ixs, m, o)
    ensures AllHoldOn(sim, SeenAll(s, ixs, m), o)
    ensures Received(sim, SeenAll(s, ixs, m), o) == AllPaidOut(s, ixs, m, o)
    decreases |ixs|
  {
    hide Mirrors, Execute, Seen, PaidOut, Holds;
    if ixs != [] {
      var front, last := ixs[..|ixs| - 1], ixs[|ixs| - 1];
      AllHoldingIsSeen(sim, s, front, m, o);
      AllSeenIsMirrored(sim, s, front, m);
      HoldingIsSeen(Run(sim, SeenAll(s, front, m)), ExecuteAll(s, front), last, m, o);
      HoldConcat(sim, SeenAll(s, front, m), Seen(ExecuteAll(s, front), last, m), o);
    }
  }

  /** What `o` gained in launch `m`: lamports to its wallet, and growth of what it is owed. */
  ghost function GainedIn(s: State, ixs: seq<Instruction>, m: Pubkey, o: Pubkey): int
    requires m in s.pools && o in s.pools[m].positions
    requires m in ExecuteAll(s, ixs).pools && o in ExecuteAll(s, ixs).pools[m].positions
  {
    var p, q := s.pools[m], ExecuteAll(s, ixs).pools[m];
    AllPaidOut(s, ixs, m, o) + Owed(q.positions[o], q.launch.accRewardPerWeight) - Owed(p.positions[o], p.launch.accRewardPerWeight)
  }

  lemma BatchesAreSeen(sim: Sim, s: State, ixs: seq<Instruction>, m: Pubkey)
    requires Mirrors(sim, s, m)
    ensures BatchesDuring(sim, SeenAll(s, ixs, m)) == BatchesOf(s, ixs, m)
  {
    AllSeenIsRecorded(sim, s, ixs, m);
    hide Run, SeenAll, BatchesOf, ExecuteAll, AllPaidBy, RestakesOf, Mirrors;
    var after := Run(sim, SeenAll(s, ixs, m)).books.events;
    assert after[|sim.books.events|..] == BatchesOf(s, ixs, m);
  }

  /** What `o` gained in the launch is what it gained in the launch's own run. */
  lemma GainIsSeen(sim: Sim, s: State, ixs: seq<Instruction>, m: Pubkey, o: Pubkey)
    requires Sound(sim) && HistoryKept(sim) && Mirrors(sim, s, m) && o in sim.pool.positions && AllHold(s, ixs, m, o)
    ensures m in ExecuteAll(s, ixs).pools && o in ExecuteAll(s, ixs).pools[m].positions
    ensures RealBatches(BatchesDuring(sim, SeenAll(s, ixs, m)))
    ensures NearShare(GainedIn(s, ixs, m, o), s.pools[m].positions[o].weight, BatchesDuring(sim, SeenAll(s, ixs, m)))
  {
    hide Sound, HistoryKept, AllHold, NearShare, Received, Run, SeenAll, AllPaidOut, ExecuteAll, Owed, BatchesDuring;
    AllSeenIsMirrored(sim, s, ixs, m);
    AllHoldingIsSeen(sim, s, ixs, m, o);
    HolderGainsShare(sim, SeenAll(s, ixs, m), o);
  }

  /**
   * Fairness in every run of the program, from any moment of it on: while the position of `o` in
   * launch `m` holds on, the lamports its wallet is paid plus the growth of what it is owed come as
   * near its exact share of the fees routed to `m` as in PaidExactShare, whatever is claimed,
   * staked or routed anywhere else.
   */
  lemma {:induction false} EveryHolderGainsItsShare(s: State, before: seq<Instruction>, ixs: seq<Instruction>, m: Pubkey, o: Pubkey)
    requires s.pools == map[]
    requires var t := ExecuteAll(s, before); m in t.pools && o in t.pools[m].positions && AllHold(t, ixs, m, o)
    ensures var t := ExecuteAll(s, before);
      && m in ExecuteAll(t, ixs).pools && o in ExecuteAll(t, ixs).pools[m].positions
      && RealBatches(BatchesOf(t, ixs, m))
      && NearShare(GainedIn(t, ixs, m, o), t.pools[m].positions[o].weight, BatchesOf(t, ixs, m))
  {
    hide OwnRun, Sound, HistoryKept, PromisesKept, AllHold, NearShare, GainedIn, ExecuteAll, BatchesDuring, BatchesOf, SeenAll;
    var t := ExecuteAll(s, before);
    var sim := OwnRun(s, before, m);
    EveryLaunchIsItsOwnRun(s, before, m);
    OwnRunIsSound(s, before, m);
    BatchesAreSeen(sim, t, ixs, m);
    GainIsSeen(sim, t, ixs, m, o);
  }

  lemma {:induction false} AppliedConcat(early: seq<Event>, late: seq<Event>)
    ensures Applied(early + late) == Applied(early) + Applied(late)
    decreases |late|
  {
    if late == [] {
      assert early + late == early;
    } else {
      assert (early + late)[..|early + late| - 1] == early + late[..|late| - 1];
      AppliedConcat(early, late[..|late| - 1]);
    }
  }

  lemma ProductInLaunch(sim: Sim, s: State, ixs: seq<Instruction>, m: Pubkey, o: Pubkey)
    requires Sound(sim) && Mirrors(sim, s, m) && o in s.pools[m].positions && AllHold(s, ixs, m, o)
    ensures m in ExecuteAll(s, ixs).pools
    ensures var w := s.pools[m].positions[o].weight;
      w * ExecuteAll(s, ixs).pools[m].launch.accRewardPerWeight
      <= w * s.pools[m].launch.accRewardPerWeight + PRECISION * Applied(BatchesOf(s, ixs, m))
  {
    hide Sound, AllHold, Received, Run, SeenAll, AllPaidOut, ExecuteAll, Applied, BatchesOf, AllHoldOn;
    AllSeenIsMirrored(sim, s, ixs, m);
    AllSeenIsRecorded(sim, s, ixs, m);
    AllHoldingIsSeen(sim, s, ixs, m, o);
    O.HeldProductGrows(sim, SeenAll(s, ixs, m), o);
    AppliedConcat(sim.books.events, BatchesOf(s, ixs, m));
  }

  /**
   * What a staker of the program can rely on from any moment on: with room for `more` lamports in
   * the product of its weight and the accumulator, nothing about its debt overflows until more than
   * that has been routed to its launch, whatever was routed before.
   */
  lemma {:induction false} EveryHeldProductFits(s: State, before: seq<Instruction>, ixs: seq<Instruction>, m: Pubkey, o: Pubkey, more: nat)
    requires s.pools == map[]
    requires var t := ExecuteAll(s, before); m in t.pools && o in t.pools[m].positions && AllHold(t, ixs, m, o)
    requires var t := ExecuteAll(s, before);
      && t.pools[m].positions[o].weight * t.pools[m].launch.accRewardPerWeight + PRECISION * more <= U128_MAX
      && Applied(BatchesOf(t, ixs, m)) <= more
    ensures var t := ExecuteAll(s, before);
      && m in ExecuteAll(t, ixs).pools
      && t.pools[m].positions[o].weight * ExecuteAll(t, ixs).pools[m].launch.accRewardPerWeight <= U128_MAX
  {
    hide OwnRun, Sound, HistoryKept, PromisesKept, AllHold, ExecuteAll, BatchesOf, Applied;
    var t := ExecuteAll(s, before);
    EveryLaunchIsItsOwnRun(s, before, m);
    OwnRunIsSound(s, before, m);
    ProductInLaunch(OwnRun(s, before, m), t, ixs, m, o);
  }

  /** `o` stays in launch `m`: no unstake of its succeeds there. */
  predicate StaysIn(s: State, ixs: seq<Instruction>, m: Pubkey, o: Pubkey)
    decreases |ixs|
  {
    ixs != [] ==>
      && StaysIn(s, ixs[..|ixs| - 1], m, o)
      && (ixs[|ixs| - 1] == UnstakeTokens(m, o) ==> Attempt(ExecuteAll(s, ixs[..|ixs| - 1]), ixs[|ixs| - 1]).Err?)
  }

  lemma StayingIsSeen(sim: Sim, s: State, ix: Instruction, m: Pubkey, o: Pubkey)
    requires Mirrors(sim, s, m) && (ix == UnstakeTokens(m, o) ==> Attempt(s, ix).Err?)
    ensures AllStay(sim, Seen(s, ix, m), o)
  {
    hide Step, Attempt, ShareIn, CleanVaults;
    var inputs := Seen(s, ix, m);
    assert |inputs| <= 1;
    if inputs != [] {
      assert inputs[..|inputs| - 1] == [] && Run(sim, []) == sim;
    }
  }

  lemma {:induction false} StayConcat(sim: Sim, xs: seq<Input>, ys: seq<Input>, o: Pubkey)
    ensures AllStay(sim, xs + ys, o) <==> AllStay(sim, xs, o) && AllStay(Run(sim, xs), ys, o)
    decreases |ys|
  {
    hide Stays, Next;
    if ys == [] {
      assert xs + ys == xs;
    } else {
      assert (xs + ys)[..|xs + ys| - 1] == xs + ys[..|ys| - 1];
      StayConcat(sim, xs, ys[..|ys| - 1], o);
      RunConcat(sim, xs, ys[..|ys| - 1]);
    }
  }

  lemma {:induction false} AllStayingIsSeen(sim: Sim, s: State, ixs: seq<Instruction>, m: Pubkey, o: Pubkey)
    requires Mirrors(sim, s, m) && StaysIn(s, ixs, m, o)
    ensures AllStay(sim, SeenAll(s, ixs, m), o)
    decreases |ixs|
  {
    hide Mirrors, Execute, Seen, Attempt;
    if ixs != [] {
      var front, last := ixs[..|ixs| - 1], ixs[|ixs| - 1];
      AllStayingIsSeen(sim, s, front, m, o);
      AllSeenIsMirrored(sim, s, front, m);
      StayingIsSeen(Run(sim, SeenAll(s, front, m)), ExecuteAll(s, front), last, m, o);
      StayConcat(sim, SeenAll(s, front, m), Seen(ExecuteAll(s, front), last, m), o);
    }
  }

  lemma EntryLocks(s: State, ix: Instruction, m: Pubkey, o: Pubkey)
    requires (ix.StakeTokens? || ix.IncreaseTokens?) && ix.mint == m && ix.owner == o && Attempt(s, ix).Ok?
    ensures var t := Execute(s, ix);
      m in t.pools && o in t.pools[m].positions && t.pools[m].positions[o].unlockTs == s.clock + ix.lockDays * 86_400
  {
    var sim := Sim(s.pools[m], s.clock, NO_BOOKS);
    StakingIsSeen(sim, s, ix, m);
    EntryPromises(sim, StakingOp(s, ix, m).value);
    hide Step, Attempt, CleanVaults, Next;
  }

  lemma UnstakeIsUnlocked(s: State, m: Pubkey, o: Pubkey)
    requires Attempt(s, UnstakeTokens(m, o)).Ok?
    ensures m in s.pools && o in s.pools[m].positions && s.pools[m].positions[o].unlockTs <= s.clock
  {
    hide Move, Pending, PayRewards;
  }

  /**
   * In any state of the program, principal put in by a stake or an increase cannot leave before
   * that call's time plus its lock days, whatever happens in between.
   */
  lemma {:induction false} NoUnstakeBeforeItsTime(s: State, ix: Instruction, ixs: seq<Instruction>, m: Pubkey, o: Pubkey)
    requires (ix.StakeTokens? || ix.IncreaseTokens?) && ix.mint == m && ix.owner == o && Attempt(s, ix).Ok?
    requires StaysIn(Execute(s, ix), ixs, m, o)
    ensures var t := ExecuteAll(Execute(s, ix), ixs);
      Attempt(t, UnstakeTokens(m, o)).Ok? ==> s.clock + ix.lockDays * 86_400 <= t.clock
  {
    EntryLocks(s, ix, m, o);
    hide Attempt, Execute, StaysIn;
    var u := Execute(s, ix);
    var t := ExecuteAll(u, ixs);
    var sim := Sim(u.pools[m], u.clock, NO_BOOKS);
    AllSeenIsMirrored(sim, u, ixs, m);
    AllStayingIsSeen(sim, u, ixs, m, o);
    hide AllStay, Run, SeenAll, ExecuteAll;
    UnlockNeverMovesBack(sim, SeenAll(u, ixs, m), o);
    if Attempt(t, UnstakeTokens(m, o)).Ok? {
      UnstakeIsUnlocked(t, m, o);
    }
  }

  // ---- Principal ----

  /** The tokens that a successful stake or increase of `o` puts into launch `m`. */
  function DepositIn(s: State, ix: Instruction, m: Pubkey, o: Pubkey): nat {
    if (ix.StakeTokens? || ix.IncreaseTokens?) && ix.mint == m && ix.owner == o && Attempt(s, ix).Ok? then ix.amount else 0
  }

  function DepositsIn(s: State, ixs: seq<Instruction>, m: Pubkey, o: Pubkey): nat
    decreases |ixs|
  {
    if ixs == [] then 0
    else
      var front, last := ixs[..|ixs| - 1], ixs[|ixs| - 1];
      DepositsIn(s, front, m, o) + DepositIn(ExecuteAll(s, front), last, m, o)
  }

  lemma AmountStep(sim: Sim, op: Op, o: Pubkey)
    requires o in sim.pool.positions && Step(sim.pool, op, sim.clock).Ok? && op != Unstake(o)
    ensures var after := Next(sim, Do(op)).pool.positions;
      && o in after
      && after[o].amount == sim.pool.positions[o].amount + (if (op.Stake? || op.Increase?) && op.owner == o then op.amount else 0)
  {
    if op.Increase? && op.owner == o {
      EntryPromises(sim, op);
    } else if op != Claim(o) {
      OthersLeavePosition(sim, Do(op), o);
    }
  }

  lemma PrincipalAlong(s: State, ix: Instruction, m: Pubkey, o: Pubkey)
    requires m in s.pools && o in s.pools[m].positions && (ix == UnstakeTokens(m, o) ==> Attempt(s, ix).Err?)
    ensures var t := Execute(s, ix);
      && m in t.pools && o in t.pools[m].positions
      && t.pools[m].positions[o].amount == s.pools[m].positions[o].amount + DepositIn(s, ix, m, o)
  {
    hide Step, CleanVaults, Attempt, ShareIn;
    var sim := Sim(s.pools[m], s.clock, NO_BOOKS);
    SeenIsMirrored(sim, s, ix, m);
    assert Run(sim, []) == sim;
    if Attempt(s, ix).Ok? {
      if StakingOp(s, ix, m).Some? {
        StakingIsSeen(sim, s, ix, m);
        AmountStep(sim, StakingOp(s, ix, m).value, o);
      } else if Seen(s, ix, m) != [] {
        RunOne(sim, Seen(s, ix, m)[0]);
        assert Seen(s, ix, m) == [Seen(s, ix, m)[0]];
        OthersLeavePosition(sim, Seen(s, ix, m)[0], o);
      }
    }
    hide Next, Run, StakingOp, Seen;
  }

  lemma {:induction false} PrincipalIsDeposits(s: State, ixs: seq<Instruction>, m: Pubkey, o: Pubkey)
    requires m in s.pools && o in s.pools[m].positions && StaysIn(s, ixs, m, o)
    ensures var t := ExecuteAll(s, ixs);
      && m in t.pools && o in t.pools[m].positions
      && t.pools[m].positions[o].amount == s.pools[m].positions[o].amount + DepositsIn(s, ixs, m, o)
    decreases |ixs|
  {
    hide Execute, Attempt, DepositIn;
    if ixs != [] {
      PrincipalIsDeposits(s, ixs[..|ixs| - 1], m, o);
      PrincipalAlong(ExecuteAll(s, ixs[..|ixs| - 1]), ixs[|ixs| - 1], m, o);
    }
  }

  lemma StakeOpens(s: State, ix: Instruction, m: Pubkey, o: Pubkey)
    requires ix.StakeTokens? && ix.mint == m && ix.owner == o && Attempt(s, ix).Ok?
    ensures var t := Execute(s, ix);
      m in t.pools && o in t.pools[m].positions && t.pools[m].positions[o].amount == ix.amount
  {
    hide Move, CleanVaults;
  }

  lemma UnstakeReturnsAmount(s: State, m: Pubkey, o: Pubkey)
    requires Attempt(s, UnstakeTokens(m, o)).Ok?
    ensures m in s.pools && o in s.pools[m].positions && m in Execute(s, UnstakeTokens(m, o)).pools
    ensures Execute(s, UnstakeTokens(m, o)).pools[m].vault == s.pools[m].vault - s.pools[m].positions[o].amount
  {
    hide Move, Pending, PayRewards;
  }

  /**
   * An episode returns exactly what it deposited: whatever happens between the stake that opens a
   * position and the unstake that closes it, the unstake takes out of the vault the tokens of that
   * stake and of every increase in between.
   */
  lemma {:induction false} EpisodeReturnsDeposits(s: State, ix: Instruction, ixs: seq<Instruction>, m: Pubkey, o: Pubkey)
    requires ix.StakeTokens? && ix.mint == m && ix.owner == o && Attempt(s, ix).Ok?
    requires StaysIn(Execute(s, ix), ixs, m, o)
    ensures var t := ExecuteAll(Execute(s, ix), ixs);
      Attempt(t, UnstakeTokens(m, o)).Ok? ==>
        && m in t.pools && m in Execute(t, UnstakeTokens(m, o)).pools
        && t.pools[m].vault - Execute(t, UnstakeTokens(m, o)).pools[m].vault
           == ix.amount + DepositsIn(Execute(s, ix), ixs, m, o)
  {
    StakeOpens(s, ix, m, o);
    hide Attempt, Execute, StaysIn;
    PrincipalIsDeposits(Execute(s, ix), ixs, m, o);
    var t := ExecuteAll(Execute(s, ix), ixs);
    hide ExecuteAll, DepositsIn;
    if Attempt(t, UnstakeTokens(m, o)).Ok? {
      UnstakeReturnsAmount(t, m, o);
    }
  }

  /** Every launch is the naive ledger over the steps it accepted, and has paid the wallets the same. */
  lemma {:induction false} EveryLaunchRefinesNaiveLedger(s: State, ixs: seq<Instruction>, m: Pubkey)
    requires s.pools == map[] && m in ExecuteAll(s, ixs).pools
    ensures var (vault, start) := Origin(s, ixs, m);
      N.NaiveRun(N.Naive(0, map[]), N.Accepted(Initial(vault, start), SeenAll(s, ixs, m)))
      == (N.Decode(ExecuteAll(s, ixs).pools[m]), AllPaidBy(s, ixs, m))
  {
    EveryLaunchIsItsOwnRun(s, ixs, m);
    OwnRunRecords(s, ixs, m);
    var (vault, start) := Origin(s, ixs, m);
    N.AccumulatorRefinesNaiveLedger(vault, start, SeenAll(s, ixs, m));
    hide Run, Initial, ExecuteAll, SeenAll, AllPaidBy, BatchesOf, RestakesOf, N.NaiveRun, N.Accepted, N.Decode, Origin;
  }
}
