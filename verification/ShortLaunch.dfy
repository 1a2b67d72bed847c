/** Transactions that leave a launch owing more than its reserve: TightRun, made by the program. */
module ShortLaunch {
  import opened Types
  import opened Sums
  import opened Rewards
  import opened Pool
  import H = History
  import opened TightRun
  import opened Lamports
  import opened SolProgram
  import opened SolLaunches
  import opened LaunchRuns
  import opened Scenes

  /** The fees of the first batch have reached the fee owner, and nothing else has happened. */
  function FeesAtHand(k: nat): State
    requires 1 <= k <= MAX_JOINERS
  {
    State(CONFIG, map[], map[Wallet(9) := LAUNCH_RENT, FeeOwner(0) := RENT + Claimed(2 * k - 1), FeeVault(0) := RENT], map[], 0)
  }

  function Joins(k: nat, j: nat): seq<Instruction>
    requires 1 <= k <= MAX_JOINERS
  {
    if j == 0 then [] + [CREATE] + [StakeWeek(0, 2 * k)] + [CLAIM] else Joins(k, j - 1) + [StakeWeek(j, 1)]
  }

  function Short(k: nat): seq<Instruction>
    requires 1 <= k <= MAX_JOINERS
  {
    Joins(k, k) + [Deposit(FeeOwner(0), 2)] + [CLAIM]
  }

  /** The launch is created, and the first fees are still with the fee owner. */
  lemma Created(k: nat)
    requires 1 <= k <= MAX_JOINERS
    ensures var t := Execute(FeesAtHand(k), CREATE);
      Standing(t, Claimed(2 * k - 1), 0, 0) && Follows(t, H.Initial(0, 0)) && Seen(FeesAtHand(k), CREATE, 0) == []
  {
    hide Seen, Attempt, Execute, Claimed;
    var s := FeesAtHand(k);
    assert s.cfg == CONFIG && s.pools == map[] && s.clock == 0 && s.wsol == map[];
    Creates(s);
  }

  lemma Begins(k: nat)
    requires 1 <= k <= MAX_JOINERS
    ensures var s := ExecuteAll(FeesAtHand(k), Joins(k, 0));
      && Standing(s, 0, 2 * k - 1, Claimed(2 * k - 1) - (2 * k - 1))
      && Follows(s, H.Run(H.Initial(0, 0), JoinedRun(k, 0)))
      && SeenAll(FeesAtHand(k), Joins(k, 0), 0) == JoinedRun(k, 0)
  {
    hide Execute, Seen, H.Next, H.Initial, Standing, Follows, FeesAtHand, Left, Step, TightRun.After;
    var s, c := FeesAtHand(k), Claimed(2 * k - 1);
    Snoc(s, [], CREATE);
    Snoc(s, [] + [CREATE], StakeWeek(0, 2 * k));
    Snoc(s, [] + [CREATE] + [StakeWeek(0, 2 * k)], CLAIM);
    Created(k);
    var s1 := Execute(s, CREATE);
    FirstStake(k);
    StakeFollows(s1, H.Initial(0, 0), 0, 2 * k, c, 0, 0);
    var sim := H.Next(H.Initial(0, 0), Join(0, 2 * k));
    FirstBatch(sim, k);
    ClaimFollows(Execute(s1, StakeWeek(0, 2 * k)), sim, c, 0, 0);
    RunOfTwo(H.Initial(0, 0), Join(0, 2 * k), H.Do(Apply(2 * k - 1)));
    hide ExecuteAll, SeenAll, H.Run;
  }

  lemma {:induction false} StakersJoin(k: nat, j: nat)
    requires 1 <= k <= MAX_JOINERS && j <= k
    ensures var s := ExecuteAll(FeesAtHand(k), Joins(k, j));
      && Standing(s, 0, 2 * k - 1, Claimed(2 * k - 1) - (2 * k - 1))
      && Follows(s, H.Run(H.Initial(0, 0), JoinedRun(k, j)))
      && SeenAll(FeesAtHand(k), Joins(k, j), 0) == JoinedRun(k, j)
  {
    hide Execute, ExecuteAll, Seen, SeenAll, H.Next, H.Run, H.Initial, Standing, Follows, FeesAtHand, Step, TightRun.After, Claimed;
    if j == 0 {
      Begins(k);
    } else {
      StakersJoin(k, j - 1);
      Snoc(FeesAtHand(k), Joins(k, j - 1), StakeWeek(j, 1));
      AfterJoins(k, j - 1);
      JoinStep(H.Run(H.Initial(0, 0), JoinedRun(k, j - 1)), k, j);
      StakeFollows(ExecuteAll(FeesAtHand(k), Joins(k, j - 1)), H.Run(H.Initial(0, 0), JoinedRun(k, j - 1)), j, 1, 0, 2 * k - 1,
                   Claimed(2 * k - 1) - (2 * k - 1));
      RunAgain(H.Initial(0, 0), JoinedRun(k, j - 1), Join(j, 1));
    }
  }

  /** The program makes the tight run, and nothing else, of the launch. */
  lemma LaunchMakesTightRun(k: nat)
    requires 1 <= k <= MAX_JOINERS
    ensures SeenAll(FeesAtHand(k), Short(k), 0) == TightRun.TightRun(k)
    ensures Follows(ExecuteAll(FeesAtHand(k), Short(k)), H.Run(H.Initial(0, 0), TightRun.TightRun(k)))
  {
    hide Execute, ExecuteAll, Seen, SeenAll, H.Next, H.Run, H.Initial, Standing, Follows, FeesAtHand, Step, TightRun.After, Claimed;
    var s, sim := FeesAtHand(k), H.Run(H.Initial(0, 0), JoinedRun(k, k));
    var fees := Claimed(2 * k - 1) - (2 * k - 1);
    StakersJoin(k, k);
    Snoc(s, Joins(k, k), Deposit(FeeOwner(0), 2));
    Snoc(s, Joins(k, k) + [Deposit(FeeOwner(0), 2)], CLAIM);
    var s1 := ExecuteAll(s, Joins(k, k));
    DepositFollows(s1, sim, 2, 2 * k - 1, fees);
    AfterJoins(k, k);
    LastBatch(sim, k);
    assert Left(2) == 2;
    ClaimFollows(Execute(s1, Deposit(FeeOwner(0), 2)), sim, 2, 2 * k - 1, fees);
    RunAgain(H.Initial(0, 0), JoinedRun(k, k), H.Do(Apply(2)));
  }

  lemma FirstCreated(k: nat)
    requires 1 <= k <= MAX_JOINERS
    ensures Attempt(FeesAtHand(k), CREATE).Ok? && FeesAtHand(k).clock == 0 && FeesAtHand(k).pools == map[]
  {
    hide Attempt, Claimed;
    Creates(FeesAtHand(k));
  }

  lemma {:induction false} JoinsFromTheStart(k: nat, j: nat)
    requires 1 <= k <= MAX_JOINERS
    ensures Origin(FeesAtHand(k), Joins(k, j), 0) == (0, 0)
  {
    hide Origin, FeesAtHand;
    if j == 0 {
      FirstCreated(k);
      OriginCreated(FeesAtHand(k));
      OriginStays(FeesAtHand(k), [] + [CREATE], StakeWeek(0, 2 * k));
      OriginStays(FeesAtHand(k), [] + [CREATE] + [StakeWeek(0, 2 * k)], CLAIM);
    } else {
      JoinsFromTheStart(k, j - 1);
      OriginStays(FeesAtHand(k), Joins(k, j - 1), StakeWeek(j, 1));
    }
  }

  lemma ShortFromTheStart(k: nat)
    requires 1 <= k <= MAX_JOINERS
    ensures Origin(FeesAtHand(k), Short(k), 0) == (0, 0)
  {
    hide Origin, FeesAtHand, Joins;
    JoinsFromTheStart(k, k);
    OriginStays(FeesAtHand(k), Joins(k, k), Deposit(FeeOwner(0), 2));
    OriginStays(FeesAtHand(k), Joins(k, k) + [Deposit(FeeOwner(0), 2)], CLAIM);
  }

  /** What the stakers of `m` are owed, and the reserve they are owed it from. */
  ghost function Shortfall(s: State, m: Pubkey): int
    requires m in s.pools
  {
    Sum(AllOwed(s.pools[m].positions, s.pools[m].launch.accRewardPerWeight)) - s.pools[m].launch.rewardReserve
  }

  /**
   * A launch of the running program can owe more than its reserve, by as much as
   * EveryLaunchIsBounded allows: for every k from one to MAX_JOINERS these k + 5 transactions
   * end with k stakes at a non-zero accumulator and a shortfall of k - 1 lamports.
   */
  lemma ALaunchEndsShort(k: nat)
    requires 1 <= k <= MAX_JOINERS
    ensures FeesAtHand(k).pools == map[]
    ensures var t := ExecuteAll(FeesAtHand(k), Short(k));
      0 in t.pools && RestakesOf(FeesAtHand(k), Short(k), 0) == k && Shortfall(t, 0) == k - 1
  {
    FirstCreated(k);
    hide Attempt, FeesAtHand, ExecuteAll, RestakesOf, Short, SeenAll, H.Run, H.Initial, Origin, BatchesOf, AllPaidBy, AllOwed, Sum;
    LaunchMakesTightRun(k);
    ShortFromTheStart(k);
    BoundIsReached(k);
    OwnRunRecords(FeesAtHand(k), Short(k), 0);
  }

  /** In every run of the program with this many stakes and increases at a non-zero accumulator, the reserve covers all. */
  ghost predicate LaunchCoveredAfter(k: nat) {
    forall s: State, ixs: seq<Instruction>, m: Pubkey ::
      s.pools == map[] && m in ExecuteAll(s, ixs).pools && RestakesOf(s, ixs, m) == k ==> Shortfall(ExecuteAll(s, ixs), m) <= 0
  }

  /** A launch of the program is certain to be covered exactly as long as there was at most one such call. */
  lemma LaunchCoverIsCertainExactly(k: nat)
    requires k <= MAX_JOINERS
    ensures LaunchCoveredAfter(k) <==> k <= 1
  {
    hide ExecuteAll, RestakesOf, FeesAtHand, Short, AllOwed, Sum;
    if k <= 1 {
      forall s: State, ixs: seq<Instruction>, m: Pubkey
        | s.pools == map[] && m in ExecuteAll(s, ixs).pools && RestakesOf(s, ixs, m) == k
        ensures Shortfall(ExecuteAll(s, ixs), m) <= 0
      {
        EveryLaunchIsBounded(s, ixs, m);
      }
    } else {
      ALaunchEndsShort(k);
    }
  }
}
