/**
 * The account list of a shared fee distribution: the shareholders of a launch are matched, in
 * order, against the extra accounts the caller passed, through one cursor over one or two passes.
 */
module Shareholders {
  import opened Types

  /** An account handed to the program: its address, and everything else about it. */
  datatype AccountInfo = AccountInfo(key: Pubkey, content: nat)

  /** An account as an outgoing instruction names it. */
  datatype AccountMeta = AccountMeta(pubkey: Pubkey, isSigner: bool, isWritable: bool)

  datatype Mode =
    | System(feeOwner: AccountInfo)
    | Token(feeOwner: AccountInfo, feeOwnerToken: AccountInfo, quoteMint: Pubkey, tokenProgram: Pubkey)

  function Writable(key: Pubkey): AccountMeta {
    AccountMeta(key, false, true)
  }

  function Keys(infos: seq<AccountInfo>): (keys: seq<Pubkey>)
    ensures |keys| == |infos|
    ensures forall i :: 0 <= i < |infos| ==> keys[i] == infos[i].key
  {
    seq(|infos|, i requires 0 <= i < |infos| => infos[i].key)
  }

  function Metas(keys: seq<Pubkey>): (metas: seq<AccountMeta>)
    ensures |metas| == |keys|
    ensures forall i :: 0 <= i < |keys| ==> metas[i] == Writable(keys[i])
  {
    seq(|keys|, i requires 0 <= i < |keys| => Writable(keys[i]))
  }

  /** The targets of the shareholders other than the fee owner, in order. */
  function Due(shares: seq<Pubkey>, targets: seq<Pubkey>, owner: Pubkey): seq<Pubkey>
    requires |targets| == |shares|
  {
    if shares == [] then []
    else
      var n := |shares| - 1;
      Due(shares[..n], targets[..n], owner) + if shares[n] == owner then [] else [targets[n]]
  }

  lemma {:induction false} DuePrefix(shares: seq<Pubkey>, targets: seq<Pubkey>, owner: Pubkey, i: nat)
    requires |targets| == |shares| && i <= |shares|
    ensures Due(shares[..i], targets[..i], owner) <= Due(shares, targets, owner)
  {
    if i < |shares| {
      var n := |shares| - 1;
      assert shares[..n][..i] == shares[..i] && targets[..n][..i] == targets[..i];
      DuePrefix(shares[..n], targets[..n], owner, i);
    } else {
      assert shares[..i] == shares && targets[..i] == targets;
    }
  }

  lemma DueNext(shares: seq<Pubkey>, targets: seq<Pubkey>, owner: Pubkey, i: nat)
    requires |targets| == |shares| && i < |shares|
    ensures Due(shares[..i + 1], targets[..i + 1], owner)
         == Due(shares[..i], targets[..i], owner) + if shares[i] == owner then [] else [targets[i]]
  {
    assert shares[..i + 1][..i] == shares[..i] && targets[..i + 1][..i] == targets[..i];
  }

  /** The fee owner's own account is the target wherever the fee owner is a shareholder. */
  ghost predicate OwnMatches(shares: seq<Pubkey>, targets: seq<Pubkey>, owner: Pubkey, own: Pubkey)
    requires |targets| == |shares|
  {
    forall i :: 0 <= i < |shares| && shares[i] == owner ==> own == targets[i]
  }

  /** A pass over the shareholders starting at cursor `start` finds every account it needs. */
  ghost predicate PassFits(shares: seq<Pubkey>, targets: seq<Pubkey>, owner: Pubkey, own: Pubkey,
                           remaining: seq<AccountInfo>, start: nat)
    requires |targets| == |shares|
  {
    var due := Due(shares, targets, owner);
    && OwnMatches(shares, targets, owner, own)
    && start + |due| <= |remaining|
    && Keys(remaining)[start..start + |due|] == due
  }

  /** Some share meets an account that is not its target: the fee owner's own, or the one passed in its turn. */
  ghost predicate Misplaced(shares: seq<Pubkey>, targets: seq<Pubkey>, owner: Pubkey, own: Pubkey,
                            remaining: seq<AccountInfo>, start: nat)
    requires |targets| == |shares|
  {
    exists i :: 0 <= i < |shares| && MisplacedAt(shares, targets, owner, own, remaining, start, i)
  }

  ghost predicate MisplacedAt(shares: seq<Pubkey>, targets: seq<Pubkey>, owner: Pubkey, own: Pubkey,
                              remaining: seq<AccountInfo>, start: nat, i: nat)
    requires |targets| == |shares| && i < |shares|
  {
    var turn := start + |Due(shares[..i], targets[..i], owner)|;
    if shares[i] == owner then own != targets[i] else turn < |remaining| && remaining[turn].key != targets[i]
  }

  /** The derived token accounts of the shareholders. */
  function TokenAccounts(shares: seq<Pubkey>, ata: (Pubkey, Pubkey, Pubkey) -> Pubkey, program: Pubkey, mint: Pubkey): (r: seq<Pubkey>)
    ensures |r| == |shares|
    ensures forall i :: 0 <= i < |shares| ==> r[i] == ata(shares[i], program, mint)
  {
    seq(|shares|, i requires 0 <= i < |shares| => ata(shares[i], program, mint))
  }

  /** The accounts a caller has to pass, and nothing else: wallets, then token accounts. */
  ghost predicate Accepts(mode: Mode, shares: seq<Pubkey>, remaining: seq<AccountInfo>,
                          ata: (Pubkey, Pubkey, Pubkey) -> Pubkey) {
    var owner := mode.feeOwner.key;
    match mode
    case System(_) => Keys(remaining) == Due(shares, shares, owner)
    case Token(_, own, mint, program) =>
      var tokens := TokenAccounts(shares, ata, program, mint);
      && Keys(remaining) == Due(shares, shares, owner) + Due(shares, tokens, owner)
      && (owner in shares ==> own.key == ata(owner, program, mint))
  }

  /** The addresses the distribution is sent with. */
  function Recipients(mode: Mode, shares: seq<Pubkey>, ata: (Pubkey, Pubkey, Pubkey) -> Pubkey): seq<Pubkey> {
    match mode
    case System(_) => shares
    case Token(_, _, mint, program) => shares + TokenAccounts(shares, ata, program, mint)
  }

  // ---- One pass, step by step ----

  /** The first `i` shareholders have been served and the cursor stands where it should. */
  ghost predicate Progress(shares: seq<Pubkey>, targets: seq<Pubkey>, owner: Pubkey, own: Pubkey,
                           remaining: seq<AccountInfo>, start: nat, i: nat, cursor: nat)
    requires |targets| == |shares| && i <= |shares|
  {
    && OwnMatches(shares[..i], targets[..i], owner, own)
    && cursor == start + |Due(shares[..i], targets[..i], owner)| <= |remaining|
    && Keys(remaining)[start..cursor] == Due(shares[..i], targets[..i], owner)
  }

  lemma PassBegins(shares: seq<Pubkey>, targets: seq<Pubkey>, owner: Pubkey, own: Pubkey,
                   remaining: seq<AccountInfo>, start: nat)
    requires |targets| == |shares| && start <= |remaining|
    ensures Progress(shares, targets, owner, own, remaining, start, 0, start)
  {
  }

  /** A fee owner's share: its own account must be the target, here and now. */
  lemma OwnStep(shares: seq<Pubkey>, targets: seq<Pubkey>, owner: Pubkey, own: Pubkey,
                remaining: seq<AccountInfo>, start: nat, i: nat, cursor: nat)
    requires |targets| == |shares| && i < |shares| && shares[i] == owner
    requires Progress(shares, targets, owner, own, remaining, start, i, cursor)
    ensures own == targets[i] ==> Progress(shares, targets, owner, own, remaining, start, i + 1, cursor)
    ensures own != targets[i] ==>
              !PassFits(shares, targets, owner, own, remaining, start) && Misplaced(shares, targets, owner, own, remaining, start)
  {
    assert own != targets[i] ==> MisplacedAt(shares, targets, owner, own, remaining, start, i);
    DueNext(shares, targets, owner, i);
  }

  /** Anybody else's share: the next remaining account must be the target. */
  lemma TakeStep(shares: seq<Pubkey>, targets: seq<Pubkey>, owner: Pubkey, own: Pubkey,
                 remaining: seq<AccountInfo>, start: nat, i: nat, cursor: nat)
    requires |targets| == |shares| && i < |shares| && shares[i] != owner
    requires Progress(shares, targets, owner, own, remaining, start, i, cursor)
    ensures if cursor < |remaining| && remaining[cursor].key == targets[i] then
              Progress(shares, targets, owner, own, remaining, start, i + 1, cursor + 1)
            else
              !PassFits(shares, targets, owner, own, remaining, start)
    ensures cursor < |remaining| && remaining[cursor].key != targets[i] ==>
              Misplaced(shares, targets, owner, own, remaining, start)
    ensures cursor == |remaining| ==> start + |Due(shares, targets, owner)| > |remaining|
  {
    assert cursor < |remaining| && remaining[cursor].key != targets[i] ==>
        MisplacedAt(shares, targets, owner, own, remaining, start, i);
    DueNext(shares, targets, owner, i);
    DuePrefix(shares, targets, owner, i + 1);
    var due := Due(shares, targets, owner);
    var k := cursor - start;
    assert Due(shares[..i + 1], targets[..i + 1], owner)[k] == targets[i];
    assert k < |due| && due[k] == targets[i];
    if start + |due| <= |remaining| {
      assert Keys(remaining)[start..start + |due|][k] == remaining[cursor].key;
    }
    if cursor < |remaining| && remaining[cursor].key == targets[i] {
      assert Keys(remaining)[start..cursor + 1] == Keys(remaining)[start..cursor] + [targets[i]];
    }
  }

  lemma PassEnds(shares: seq<Pubkey>, targets: seq<Pubkey>, owner: Pubkey, own: Pubkey,
                 remaining: seq<AccountInfo>, start: nat, cursor: nat)
    requires |targets| == |shares|
    requires Progress(shares, targets, owner, own, remaining, start, |shares|, cursor)
    ensures PassFits(shares, targets, owner, own, remaining, start)
    ensures cursor == start + |Due(shares, targets, owner)|
  {
    assert shares[..|shares|] == shares && targets[..|shares|] == targets;
  }

  /** Both lists have grown by the accounts of `targets`, in order. */
  ghost predicate Appended(accounts0: seq<AccountMeta>, infos0: seq<AccountInfo>,
                           accounts: seq<AccountMeta>, infos: seq<AccountInfo>, targets: seq<Pubkey>) {
    && accounts == accounts0 + Metas(targets)
    && |infos| == |infos0| + |targets|
    && infos[..|infos0|] == infos0
    && Keys(infos[|infos0|..]) == targets
  }

  /**
   * The same by fields: what was there stays in front, and behind it every target stands once, in
   * order and in both lists, as an account that is written to and does not sign.
   */
  ghost predicate AppendedAccounts(accounts0: seq<AccountMeta>, infos0: seq<AccountInfo>,
                                   accounts: seq<AccountMeta>, infos: seq<AccountInfo>, targets: seq<Pubkey>) {
    && |accounts| == |accounts0| + |targets| && accounts[..|accounts0|] == accounts0
    && |infos| == |infos0| + |targets| && infos[..|infos0|] == infos0
    && forall i :: 0 <= i < |targets| ==>
         && accounts[|accounts0| + i].pubkey == targets[i] == infos[|infos0| + i].key
         && !accounts[|accounts0| + i].isSigner
         && accounts[|accounts0| + i].isWritable
  }

  lemma AppendedByFields(accounts0: seq<AccountMeta>, infos0: seq<AccountInfo>,
                         accounts: seq<AccountMeta>, infos: seq<AccountInfo>, targets: seq<Pubkey>)
    requires Appended(accounts0, infos0, accounts, infos, targets)
    ensures AppendedAccounts(accounts0, infos0, accounts, infos, targets)
  {
    forall i | 0 <= i < |targets|
      ensures accounts[|accounts0| + i] == AccountMeta(targets[i], false, true) && infos[|infos0| + i].key == targets[i]
    {
      assert infos[|infos0|..][i] == infos[|infos0| + i];
      assert Keys(infos[|infos0|..])[i] == targets[i];
    }
  }

  lemma NothingAppended(accounts0: seq<AccountMeta>, infos0: seq<AccountInfo>, targets: seq<Pubkey>)
    ensures Appended(accounts0, infos0, accounts0, infos0, targets[..0])
  {
  }

  lemma OneAppended(accounts0: seq<AccountMeta>, infos0: seq<AccountInfo>,
                    accounts: seq<AccountMeta>, infos: seq<AccountInfo>, targets: seq<Pubkey>, info: AccountInfo)
    requires Appended(accounts0, infos0, accounts, infos, targets)
    ensures Appended(accounts0, infos0, accounts + [Writable(info.key)], infos + [info], targets + [info.key])
  {
    assert Metas(targets + [info.key]) == Metas(targets) + [Writable(info.key)];
    assert (infos + [info])[|infos0|..] == infos[|infos0|..] + [info];
  }

  lemma AppendedTwice(accounts0: seq<AccountMeta>, infos0: seq<AccountInfo>, accounts1: seq<AccountMeta>, infos1: seq<AccountInfo>,
                      accounts2: seq<AccountMeta>, infos2: seq<AccountInfo>, first: seq<Pubkey>, second: seq<Pubkey>)
    requires Appended(accounts0, infos0, accounts1, infos1, first)
    requires Appended(accounts1, infos1, accounts2, infos2, second)
    ensures Appended(accounts0, infos0, accounts2, infos2, first + second)
  {
    assert Metas(first + second) == Metas(first) + Metas(second);
    assert infos2[|infos0|..] == infos1[|infos0|..] + infos2[|infos1|..];
    assert infos2[..|infos0|] == infos2[..|infos1|][..|infos0|];
  }

  /** The two lists an outgoing instruction is built from. */
  class AccountLists {
    var accounts: seq<AccountMeta>
    var infos: seq<AccountInfo>

    constructor (accounts: seq<AccountMeta>, infos: seq<AccountInfo>)
      ensures this.accounts == accounts && this.infos == infos
    {
      this.accounts, this.infos := accounts, infos;
    }

    /**
     * One pass: `own` stands for the fee owner, every other shareholder takes the next of the
     * remaining accounts. Returns the cursor.
     */
    method AppendPass(shares: seq<Pubkey>, targets: seq<Pubkey>, owner: Pubkey, own: AccountInfo,
                      remaining: seq<AccountInfo>, start: nat, mismatch: Error)
      returns (r: Result<nat>)
      requires |targets| == |shares| && start <= |remaining|
      modifies this
      ensures r.Ok? <==> PassFits(shares, targets, owner, own.key, remaining, start)
      ensures r.Err? ==> r.error == mismatch || r.error == InvalidPumpAccount
      ensures r.Err? && r.error != mismatch ==> start + |Due(shares, targets, owner)| > |remaining|
      ensures r.Err? && r.error != InvalidPumpAccount ==> Misplaced(shares, targets, owner, own.key, remaining, start)
      ensures r.Ok? ==>
                && r.value == start + |Due(shares, targets, owner)|
                && Appended(old(accounts), old(infos), accounts, infos, targets)
                && AppendedAccounts(old(accounts), old(infos), accounts, infos, targets)
    {
      hide Due, PassFits, OwnMatches, Progress, Appended, AppendedAccounts, Misplaced;
      var cursor := start;
      var i := 0;
      PassBegins(shares, targets, owner, own.key, remaining, start);
      NothingAppended(old(accounts), old(infos), targets);
      while i < |shares|
        invariant 0 <= i <= |shares| && 0 <= cursor <= |remaining|
        invariant Progress(shares, targets, owner, own.key, remaining, start, i, cursor)
        invariant Appended(old(accounts), old(infos), accounts, infos, targets[..i])
      {
        var info := own;
        if shares[i] == owner {
          OwnStep(shares, targets, owner, own.key, remaining, start, i, cursor);
          if own.key != targets[i] {
            return Err(mismatch);
          }
        } else {
          TakeStep(shares, targets, owner, own.key, remaining, start, i, cursor);
          if cursor >= |remaining| {
            return Err(InvalidPumpAccount);
          }
          info := remaining[cursor];
          if info.key != targets[i] {
            return Err(mismatch);
          }
          cursor := cursor + 1;
        }
        OneAppended(old(accounts), old(infos), accounts, infos, targets[..i], info);
        accounts := accounts + [Writable(info.key)];
        infos := infos + [info];
        assert targets[..i + 1] == targets[..i] + [info.key];
        i := i + 1;
      }
      PassEnds(shares, targets, owner, own.key, remaining, start, cursor);
      assert targets[..i] == targets;
      AppendedByFields(old(accounts), old(infos), accounts, infos, targets);
      return Ok(cursor);
    }

    /**
     * `append_shareholder_accounts`: it succeeds exactly on the account list the mode calls for,
     * and then it has appended every recipient once, in order, to both lists.
     */
    method AppendShareholders(shares: seq<Pubkey>, mode: Mode, remaining: seq<AccountInfo>,
                              ata: (Pubkey, Pubkey, Pubkey) -> Pubkey)
      returns (r: Status)
      modifies this
      ensures r.Ok? <==> Accepts(mode, shares, remaining, ata)
      ensures r.Err? ==> r.error == InvalidPumpAccount || (mode.Token? && r.error == InvalidTokenAccount)
      ensures mode.Token? && r.Err? ==>
                var owner, tokens := mode.feeOwner.key, TokenAccounts(shares, ata, mode.tokenProgram, mode.quoteMint);
                var passed := |Due(shares, shares, owner)|;
                if r.error == InvalidTokenAccount then
                  && PassFits(shares, shares, owner, owner, remaining, 0)
                  && Misplaced(shares, tokens, owner, mode.feeOwnerToken.key, remaining, passed)
                else
                  || !PassFits(shares, shares, owner, owner, remaining, 0)
                  || |remaining| != passed + |Due(shares, tokens, owner)|
      ensures r.Ok? ==>
                AppendedAccounts(old(accounts), old(infos), accounts, infos, Recipients(mode, shares, ata))
    {
      hide Due, PassFits, Accepts, Appended, AppendedAccounts, Misplaced;
      var owner := mode.feeOwner.key;
      var wallets := AppendPass(shares, shares, owner, mode.feeOwner, remaining, 0, InvalidPumpAccount);
      WalletsAreNeeded(mode, shares, remaining, ata);
      if wallets.Err? {
        return Err(wallets.error);
      }
      var cursor := wallets.value;
      WithinRemaining(shares, shares, owner, owner, remaining, 0);
      AllConsumed(mode, shares, remaining, ata);
      if mode.Token? {
        var targets := TokenAccounts(shares, ata, mode.tokenProgram, mode.quoteMint);
        ghost var accounts1, infos1 := accounts, infos;
        var tokens := AppendPass(shares, targets, owner, mode.feeOwnerToken, remaining, cursor, InvalidTokenAccount);
        TokensAreNeeded(mode, shares, remaining, ata);
        if tokens.Err? {
          return Err(tokens.error);
        }
        cursor := tokens.value;
        AppendedTwice(old(accounts), old(infos), accounts1, infos1, accounts, infos, shares, targets);
      }
      if cursor != |remaining| {
        return Err(InvalidPumpAccount);
      }
      AppendedByFields(old(accounts), old(infos), accounts, infos, Recipients(mode, shares, ata));
      return Ok(());
    }

    lemma WithinRemaining(shares: seq<Pubkey>, targets: seq<Pubkey>, owner: Pubkey, own: Pubkey,
                          remaining: seq<AccountInfo>, start: nat)
      requires |targets| == |shares| && PassFits(shares, targets, owner, own, remaining, start)
      ensures start + |Due(shares, targets, owner)| <= |remaining|
    {
    }

    lemma WalletsAreNeeded(mode: Mode, shares: seq<Pubkey>, remaining: seq<AccountInfo>,
                           ata: (Pubkey, Pubkey, Pubkey) -> Pubkey)
      ensures Accepts(mode, shares, remaining, ata)
              ==> PassFits(shares, shares, mode.feeOwner.key, mode.feeOwner.key, remaining, 0)
    {
    }

    lemma TokensAreNeeded(mode: Mode, shares: seq<Pubkey>, remaining: seq<AccountInfo>,
                          ata: (Pubkey, Pubkey, Pubkey) -> Pubkey)
      requires mode.Token?
      ensures Accepts(mode, shares, remaining, ata) ==>
                PassFits(shares, TokenAccounts(shares, ata, mode.tokenProgram, mode.quoteMint), mode.feeOwner.key,
                         mode.feeOwnerToken.key, remaining, |Due(shares, shares, mode.feeOwner.key)|)
    {
    }

    lemma AllConsumed(mode: Mode, shares: seq<Pubkey>, remaining: seq<AccountInfo>,
                      ata: (Pubkey, Pubkey, Pubkey) -> Pubkey)
      requires PassFits(shares, shares, mode.feeOwner.key, mode.feeOwner.key, remaining, 0)
      ensures mode.System? ==>
                (Accepts(mode, shares, remaining, ata) <==> |Due(shares, shares, mode.feeOwner.key)| == |remaining|)
      ensures mode.Token? ==>
                var targets := TokenAccounts(shares, ata, mode.tokenProgram, mode.quoteMint);
                var start := |Due(shares, shares, mode.feeOwner.key)|;
                PassFits(shares, targets, mode.feeOwner.key, mode.feeOwnerToken.key, remaining, start) ==>
                  (Accepts(mode, shares, remaining, ata)
                   <==> start + |Due(shares, targets, mode.feeOwner.key)| == |remaining|)
    {
      var wallets := Due(shares, shares, mode.feeOwner.key);
      assert |wallets| == |remaining| ==> Keys(remaining)[0..|wallets|] == Keys(remaining);
      if mode.Token? {
        var tokens := Due(shares, TokenAccounts(shares, ata, mode.tokenProgram, mode.quoteMint), mode.feeOwner.key);
        var n := |wallets| + |tokens|;
        assert n == |remaining| ==> Keys(remaining)[0..|wallets|] + Keys(remaining)[|wallets|..n] == Keys(remaining);
      }
    }
  }

  /** With no fee owner among them, every shareholder must be passed; with only it, none. */
  lemma {:induction false} DueCounts(shares: seq<Pubkey>, targets: seq<Pubkey>, owner: Pubkey)
    requires |targets| == |shares|
    ensures owner !in shares ==> Due(shares, targets, owner) == targets
    ensures (forall i :: 0 <= i < |shares| ==> shares[i] == owner) ==> Due(shares, targets, owner) == []
  {
    if shares != [] {
      var n := |shares| - 1;
      DueCounts(shares[..n], targets[..n], owner);
      assert targets == targets[..n] + [targets[n]];
    }
  }
}
