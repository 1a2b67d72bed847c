/** Locks and principal over whole runs: nothing leaves early, and everything comes back. */
module Locks {
  import opened Types
  import opened Rewards
  import opened Pool
  import opened History
  import opened Accrual

  ghost predicate AllAtMost(times: seq<int>, limit: int) {
    forall i :: 0 <= i < |times| ==> times[i] <= limit
  }

  /** A finished episode returned exactly what it took in, no earlier than any call promised. */
  ghost predicate Honoured(c: Closing) {
    c.returned == c.deposited && |c.commitments| > 0 && AllAtMost(c.commitments, c.at)
  }

  /**
   * Every open position holds what its calls deposited and is locked at least until each of
   * the times they promised; every finished episode was honoured.
   */
  ghost predicate PromisesKept(s: Sim) {
    && s.books.deposited.Keys == s.books.commitments.Keys == s.pool.positions.Keys
    && (forall o :: o in s.pool.positions ==>
          && s.books.deposited[o] == s.pool.positions[o].amount
          && |s.books.commitments[o]| > 0
          && AllAtMost(s.books.commitments[o], s.pool.positions[o].unlockTs))
    && (forall i :: 0 <= i < |s.books.closings| ==> Honoured(s.books.closings[i]))
  }

  /** `t` is `s` after `owner` put in `amount` more tokens and promised not to leave before `until`. */
  ghost predicate Promises(s: Sim, t: Sim, owner: Pubkey, amount: nat, until: int) {
    && owner in t.pool.positions
    && t.pool.positions == s.pool.positions[owner := t.pool.positions[owner]]
    && t.pool.positions[owner].amount == AmountOf(s.pool, owner) + amount
    && t.pool.positions[owner].unlockTs == until
    && (owner in s.pool.positions ==> s.pool.positions[owner].unlockTs <= until)
    && t.pool.vault == s.pool.vault + amount
    && t.books.commitments == s.books.commitments[owner := Seq(s.books.commitments, owner) + [until]]
    && t.books.deposited
       == s.books.deposited[owner := (if owner in s.books.deposited then s.books.deposited[owner] else 0) + amount]
    && t.books.closings == s.books.closings
  }

  /** A stake or an increase appends its own promise to those of its owner. */
  lemma EntryPromises(s: Sim, op: Op)
    requires (op.Stake? || op.Increase?) && Step(s.pool, op, s.clock).Ok?
    ensures Promises(s, Next(s, Do(op)), op.owner, op.amount, s.clock + op.lockDays * 86_400)
  {
    hide Pending, LockMultiplier;
    if op.Stake? {
      assert op.owner !in s.pool.positions;
    } else {
      assert op.owner in s.pool.positions;
    }
  }

  lemma PromiseIsKept(s: Sim, t: Sim, owner: Pubkey, amount: nat, until: int)
    requires PromisesKept(s) && Promises(s, t, owner, amount, until)
    ensures PromisesKept(t)
  {
  }

  lemma EntryKeepsPromises(s: Sim, op: Op)
    requires PromisesKept(s) && (op.Stake? || op.Increase?) && Step(s.pool, op, s.clock).Ok?
    ensures PromisesKept(Next(s, Do(op)))
    ensures Next(s, Do(op)).pool.vault == s.pool.vault + op.amount
  {
    EntryPromises(s, op);
    PromiseIsKept(s, Next(s, Do(op)), op.owner, op.amount, s.clock + op.lockDays * 86_400);
  }

  lemma UnstakeKeepsPromises(s: Sim, o: Pubkey)
    requires PromisesKept(s) && Step(s.pool, Unstake(o), s.clock).Ok?
    ensures PromisesKept(Next(s, Do(Unstake(o))))
    ensures var t := Next(s, Do(Unstake(o)));
      && o in s.pool.positions && o !in t.pool.positions
      && t.pool.vault == s.pool.vault - s.books.deposited[o]
      && t.books.closings == s.books.closings
                             + [Closing(o, s.books.deposited[o], s.books.deposited[o], s.books.commitments[o], s.clock)]
  {
  }

  lemma OthersKeepPromises(s: Sim, op: Op)
    requires PromisesKept(s) && (op.Apply? || op.Claim? || op.VaultDeposit?)
    ensures PromisesKept(Next(s, Do(op)))
    ensures s.pool.vault <= Next(s, Do(op)).pool.vault
  {
  }

  lemma {:induction false} NextKeepsPromises(s: Sim, input: Input)
    requires PromisesKept(s)
    ensures PromisesKept(Next(s, input))
  {
    if input.Do? && Step(s.pool, input.op, s.clock).Ok? {
      match input.op
      case Stake(_, _, _, _, _) => EntryKeepsPromises(s, input.op);
      case Increase(_, _, _, _, _) => EntryKeepsPromises(s, input.op);
      case Unstake(o) => UnstakeKeepsPromises(s, o);
      case _ => OthersKeepPromises(s, input.op);
    }
  }

  lemma {:induction false} RunKeepsPromises(s: Sim, inputs: seq<Input>)
    requires PromisesKept(s)
    ensures PromisesKept(Run(s, inputs))
    decreases |inputs|
  {
    if inputs != [] {
      RunKeepsPromises(s, inputs[..|inputs| - 1]);
      NextKeepsPromises(Run(s, inputs[..|inputs| - 1]), inputs[|inputs| - 1]);
    }
  }

  /**
   * In every run, each finished episode paid back exactly the tokens it had deposited, and
   * did so no earlier than call time + lock days for its opening stake and every increase.
   */
  lemma {:induction false} EveryRunKeepsPromises(vault: u64, clock: i64, inputs: seq<Input>)
    ensures PromisesKept(Run(Initial(vault, clock), inputs))
  {
    RunKeepsPromises(Initial(vault, clock), inputs);
  }

  /** Principal leaves the vault only by an unstake, and then only the caller's own, after its lock. */
  lemma {:induction false} PrincipalLeavesOnlyUnlocked(vault: u64, clock: i64, inputs: seq<Input>, input: Input)
    requires var s := Run(Initial(vault, clock), inputs); Next(s, input).pool.vault < s.pool.vault
    ensures var s := Run(Initial(vault, clock), inputs);
      && input.Do? && input.op.Unstake? && input.op.owner in s.pool.positions
      && input.op.owner in s.books.deposited && input.op.owner in s.books.commitments
      && s.pool.vault - Next(s, input).pool.vault == s.books.deposited[input.op.owner]
      && AllAtMost(s.books.commitments[input.op.owner], s.clock)
  {
    var s := Run(Initial(vault, clock), inputs);
    EveryRunKeepsPromises(vault, clock, inputs);
    if input.Do? && Step(s.pool, input.op, s.clock).Ok? {
      match input.op
      case Stake(_, _, _, _, _) => EntryKeepsPromises(s, input.op);
      case Increase(_, _, _, _, _) => EntryKeepsPromises(s, input.op);
      case Unstake(o) => UnstakeKeepsPromises(s, o);
      case _ => OthersKeepPromises(s, input.op);
    }
  }

  /** `o` stays: no unstake of its succeeds. */
  predicate Stays(s: Sim, input: Input, o: Pubkey) {
    input == Do(Unstake(o)) ==> Step(s.pool, Unstake(o), s.clock).Err?
  }

  predicate AllStay(s: Sim, inputs: seq<Input>, o: Pubkey)
    decreases |inputs|
  {
    inputs != [] ==>
      && AllStay(s, inputs[..|inputs| - 1], o)
      && Stays(Run(s, inputs[..|inputs| - 1]), inputs[|inputs| - 1], o)
  }

  lemma UnlockStepForward(s: Sim, input: Input, o: Pubkey)
    requires o in s.pool.positions && Stays(s, input, o)
    ensures o in Next(s, input).pool.positions
    ensures s.pool.positions[o].unlockTs <= Next(s, input).pool.positions[o].unlockTs
  {
    if input.Do? && Step(s.pool, input.op, s.clock).Err? {
      assert Next(s, input) == s;
    } else if input.Do? && input.op.Increase? && input.op.owner == o {
      EntryPromises(s, input.op);
    } else if input != Do(Claim(o)) {
      OthersLeavePosition(s, input, o);
    }
  }

  /** While a position stays open its unlock time never moves back, whatever is attempted. */
  lemma {:induction false} UnlockNeverMovesBack(s: Sim, inputs: seq<Input>, o: Pubkey)
    requires o in s.pool.positions && AllStay(s, inputs, o)
    ensures o in Run(s, inputs).pool.positions
    ensures s.pool.positions[o].unlockTs <= Run(s, inputs).pool.positions[o].unlockTs
    decreases |inputs|
  {
    if inputs != [] {
      hide Next, Stays;
      UnlockNeverMovesBack(s, inputs[..|inputs| - 1], o);
      UnlockStepForward(Run(s, inputs[..|inputs| - 1]), inputs[|inputs| - 1], o);
    }
  }
}
