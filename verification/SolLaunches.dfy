/**
 * Every launch of a running program does what module History makes of the inputs that launch
 * saw: its own staking calls, its shares of the fee claims on any launch, and the clock.
 */
module SolLaunches {
  import opened Types
  import opened Pool
  import opened History
  import opened Solvency
  import opened Accrual
  import opened Locks
  import opened Lamports
  import opened SolProgram
  import opened Routing
  import opened FeeClaims
  import opened SolRuns

  /** What the stakers of `m` receive from a transaction: their share of a fee claim. */
  function ShareIn(s: State, ix: Instruction, m: Pubkey): nat {
    var amount := ClaimedAmount(s, ix);
    if IsFeeClaim(ix) && 0 <= amount <= U64_MAX then ShareOf(s.cfg, ix.mint, amount, m) else 0
  }

  /** The staking step that a transaction performs on launch `m`, if it is one. */
  function StakingOp(s: State, ix: Instruction, m: Pubkey): Option<Op> {
    match ix
    case StakeTokens(mint, owner, amount, lockDays, funds) =>
      if mint == m then Some(Stake(owner, amount, lockDays, funds, CleanVaults(s, m))) else None
    case IncreaseTokens(mint, owner, amount, lockDays, funds) =>
      if mint == m then Some(Increase(owner, amount, lockDays, funds, CleanVaults(s, m))) else None
    case ClaimRewards(mint, owner) => if mint == m then Some(Claim(owner)) else None
    case UnstakeTokens(mint, owner) => if mint == m then Some(Unstake(owner)) else None
    case DepositTokens(mint, tokens) => if mint == m then Some(VaultDeposit(tokens)) else None
    case _ => None
  }

  /** What launch `m`, once it exists, sees of a transaction; of a failed one, nothing. */
  function Seen(s: State, ix: Instruction, m: Pubkey): seq<Input> {
    if m !in s.pools || Attempt(s, ix).Err? then []
    else if StakingOp(s, ix, m).Some? then [Do(StakingOp(s, ix, m).value)]
    else if 0 < ShareIn(s, ix, m) <= U64_MAX then [Do(Apply(ShareIn(s, ix, m)))]
    else if ix.AdvanceClock? then [Tick(ix.ts)]
    else []
  }

  function SeenAll(s: State, ixs: seq<Instruction>, m: Pubkey): seq<Input>
    decreases |ixs|
  {
    if ixs == [] then []
    else
      var front, last := ixs[..|ixs| - 1], ixs[|ixs| - 1];
      SeenAll(s, front, m) + Seen(ExecuteAll(s, front), last, m)
  }

  /** `sim` is in the state of launch `m`. */
  ghost predicate Mirrors(sim: Sim, s: State, m: Pubkey) {
    m in s.pools && sim.pool == s.pools[m] && sim.clock == s.clock
  }

  lemma RunOne(sim: Sim, input: Input)
    ensures Run(sim, [input]) == Next(sim, input)
  {
    assert [input][..0] == [];
    assert Run(sim, []) == sim;
  }

  lemma {:induction false} RunConcat(sim: Sim, xs: seq<Input>, ys: seq<Input>)
    ensures Run(sim, xs + ys) == Run(Run(sim, xs), ys)
    decreases |ys|
  {
    hide Next;
    if ys == [] {
      assert xs + ys == xs;
    } else {
      assert (xs + ys)[..|xs + ys| - 1] == xs + ys[..|ys| - 1];
      RunConcat(sim, xs, ys[..|ys| - 1]);
    }
  }

  // ---- One transaction ----

  lemma StakingIsSeen(sim: Sim, s: State, ix: Instruction, m: Pubkey)
    requires Mirrors(sim, s, m) && Attempt(s, ix).Ok? && StakingOp(s, ix, m).Some?
    ensures var op := StakingOp(s, ix, m).value;
      && Step(s.pools[m], op, s.clock).Ok?
      && Mirrors(Next(sim, Do(op)), Execute(s, ix), m)
  {
    hide Step, Record, Move;
  }

  lemma ShareIsSeen(p: Pool, q: Pool, share: nat, sim: Sim)
    requires PoolTookShare(p, q, share) && sim.pool == p && share > 0
    ensures share <= U64_MAX && Step(p, Apply(share), sim.clock).Ok?
    ensures Next(sim, Do(Apply(share))).pool == q && Next(sim, Do(Apply(share))).clock == sim.clock
  {
    hide ApplyRewards, Record;
  }

  lemma ClaimIsSeen(sim: Sim, s: State, ix: Instruction, m: Pubkey)
    requires Mirrors(sim, s, m) && Attempt(s, ix).Ok? && IsFeeClaim(ix)
    ensures ShareIn(s, ix, m) <= U64_MAX
    ensures if ShareIn(s, ix, m) == 0 then Mirrors(sim, Execute(s, ix), m)
            else Mirrors(Next(sim, Do(Apply(ShareIn(s, ix, m)))), Execute(s, ix), m)
  {
    hide Attempt, ShareOf, PoolTookShare, Next, ClaimedAmount;
    FeeClaimShares(s, ix);
    var t := Attempt(s, ix).value;
    var share := ShareOf(s.cfg, ix.mint, ClaimedAmount(s, ix), m);
    assert PoolTookShare(s.pools[m], t.pools[m], share);
    if share > 0 {
      ShareIsSeen(s.pools[m], t.pools[m], share, sim);
    } else {
      assert t.pools[m] == s.pools[m] by { NoShareNoChange(s.pools[m], t.pools[m]); }
    }
  }

  lemma NoShareNoChange(p: Pool, q: Pool)
    requires PoolTookShare(p, q, 0)
    ensures q == p
  {
  }

  /** Whatever else happens leaves the launch alone, apart from the clock. */
  lemma OthersAreNotSeen(sim: Sim, s: State, ix: Instruction, m: Pubkey)
    requires Mirrors(sim, s, m) && Attempt(s, ix).Ok? && !IsFeeClaim(ix) && StakingOp(s, ix, m).None?
    ensures Mirrors(if ix.AdvanceClock? then Next(sim, Tick(ix.ts)) else sim, Execute(s, ix), m)
  {
    hide Step, Move, MoveBy, TopUp, CleanVaults;
  }

  lemma NoClaimNoShare(s: State, ix: Instruction, m: Pubkey)
    requires !IsFeeClaim(ix)
    ensures ShareIn(s, ix, m) == 0
  {
  }

  /** A launch takes exactly the steps of what it sees. */
  lemma SeenIsMirrored(sim: Sim, s: State, ix: Instruction, m: Pubkey)
    requires Mirrors(sim, s, m)
    ensures Mirrors(Run(sim, Seen(s, ix, m)), Execute(s, ix), m)
  {
    hide Next, Attempt, StakingOp, ShareIn;
    assert Run(sim, []) == sim;
    if Attempt(s, ix).Ok? {
      if StakingOp(s, ix, m).Some? {
        StakingIsSeen(sim, s, ix, m);
        RunOne(sim, Do(StakingOp(s, ix, m).value));
      } else if IsFeeClaim(ix) {
        ClaimIsSeen(sim, s, ix, m);
        if ShareIn(s, ix, m) > 0 {
          RunOne(sim, Do(Apply(ShareIn(s, ix, m))));
        }
      } else {
        OthersAreNotSeen(sim, s, ix, m);
        NoClaimNoShare(s, ix, m);
        if ix.AdvanceClock? {
          RunOne(sim, Tick(ix.ts));
        }
      }
    }
  }

  /** From any state in which `m` exists, its run over what it sees stays with the program. */
  lemma {:induction false} AllSeenIsMirrored(sim: Sim, s: State, ixs: seq<Instruction>, m: Pubkey)
    requires Mirrors(sim, s, m)
    ensures Mirrors(Run(sim, SeenAll(s, ixs, m)), ExecuteAll(s, ixs), m)
    decreases |ixs|
  {
    hide Mirrors, Execute, Seen;
    if ixs == [] {
      assert Run(sim, []) == sim;
    } else {
      var front, last := ixs[..|ixs| - 1], ixs[|ixs| - 1];
      AllSeenIsMirrored(sim, s, front, m);
      SeenIsMirrored(Run(sim, SeenAll(s, front, m)), ExecuteAll(s, front), last, m);
      RunConcat(sim, SeenAll(s, front, m), Seen(ExecuteAll(s, front), last, m));
    }
  }

  // ---- From the launch's creation on ----

  /** What the vault held, and what time it was, when `m` was created. */
  function Origin(s: State, ixs: seq<Instruction>, m: Pubkey): (u64, i64)
    decreases |ixs|
  {
    if ixs == [] then (0, s.clock)
    else
      var front, last := ixs[..|ixs| - 1], ixs[|ixs| - 1];
      if last.InitializeLaunch? && last.mint == m && Attempt(ExecuteAll(s, front), last).Ok? then
        (last.held, ExecuteAll(s, front).clock)
      else
        Origin(s, front, m)
  }

  /** The run of launch `m` by itself over everything it saw. */
  ghost function OwnRun(s: State, ixs: seq<Instruction>, m: Pubkey): Sim {
    var (vault, start) := Origin(s, ixs, m);
    Run(Initial(vault, start), SeenAll(s, ixs, m))
  }

  lemma {:induction false} NothingSeenBefore(s: State, ixs: seq<Instruction>, m: Pubkey)
    requires m !in ExecuteAll(s, ixs).pools
    ensures SeenAll(s, ixs, m) == []
    decreases |ixs|
  {
    hide Execute;
    if ixs != [] {
      var front, last := ixs[..|ixs| - 1], ixs[|ixs| - 1];
      LaunchesAfter(ExecuteAll(s, front), last);
      NothingSeenBefore(s, front, m);
    }
  }

  lemma CreatedIsMirrored(s: State, ix: Instruction, m: Pubkey)
    requires ix.InitializeLaunch? && ix.mint == m && Attempt(s, ix).Ok?
    ensures m !in s.pools && Mirrors(Initial(ix.held, s.clock), Execute(s, ix), m)
  {
    hide TopUp;
  }

  /**
   * The router, the main-coin share and the other launches do nothing to a launch that its own
   * run would not: in every run of the program that started without launches, each launch is, at
   * every moment, where its run alone over exactly the inputs it saw has come. So what module
   * History records of that run, and what is proved about it, is about the program's own calls.
   */
  lemma {:induction false} EveryLaunchIsItsOwnRun(s: State, ixs: seq<Instruction>, m: Pubkey)
    requires s.pools == map[] && m in ExecuteAll(s, ixs).pools
    ensures Mirrors(OwnRun(s, ixs, m), ExecuteAll(s, ixs), m)
    decreases |ixs|
  {
    hide Execute, Seen, Mirrors, Initial;
    var front, last := ixs[..|ixs| - 1], ixs[|ixs| - 1];
    var before := ExecuteAll(s, front);
    var (vault, start) := Origin(s, ixs, m);
    LaunchesAfter(before, last);
    if m in before.pools {
      AlreadyThere(before, last, m);
      EveryLaunchIsItsOwnRun(s, front, m);
      SeenIsMirrored(OwnRun(s, front, m), before, last, m);
      RunConcat(Initial(vault, start), SeenAll(s, front, m), Seen(before, last, m));
    } else {
      CreatedIsMirrored(before, last, m);
      NothingSeenBefore(s, front, m);
      NotYetThere(before, last, m);
    }
  }

  lemma AlreadyThere(s: State, ix: Instruction, m: Pubkey)
    requires m in s.pools
    ensures ix.InitializeLaunch? && ix.mint == m ==> Attempt(s, ix).Err?
  {
  }

  lemma NotYetThere(s: State, ix: Instruction, m: Pubkey)
    requires m !in s.pools
    ensures Seen(s, ix, m) == []
  {
  }

  /** What holds in every run of a launch holds of the run each launch has made. */
  lemma OwnRunIsSound(s: State, ixs: seq<Instruction>, m: Pubkey)
    ensures Sound(OwnRun(s, ixs, m)) && HistoryKept(OwnRun(s, ixs, m)) && PromisesKept(OwnRun(s, ixs, m))
  {
    hide Sound, HistoryKept, PromisesKept, Run, Initial, SeenAll, Origin;
    var (vault, start) := Origin(s, ixs, m);
    EveryRunIsSound(vault, start, SeenAll(s, ixs, m));
    EveryRunKeepsHistory(vault, start, SeenAll(s, ixs, m));
    EveryRunKeepsPromises(vault, start, SeenAll(s, ixs, m));
  }
}
