/** Lamport balances of the accounts the program touches, and the moves between them. */
module Lamports {
  import opened Types
  import opened Sums

  /**
   * The addresses in play. A program-derived address is its seeds: two of them are equal only
   * when their seeds are, and none of them is a wallet.
   *
   * Launch: the launch account of a mint. FeeVault: its protocol-fee vault. FeeOwner: the
   * creator account that collects its fees. FeeOwnerWsol: that account's wrapped-SOL token
   * account. CreatorVault and CoinCreatorAta: where Pump.fun and PumpSwap keep unclaimed fees.
   */
  datatype Address =
    | Launch(mint: Pubkey)
    | FeeVault(mint: Pubkey)
    | FeeOwner(mint: Pubkey)
    | FeeOwnerWsol(mint: Pubkey)
    | CreatorVault(mint: Pubkey)
    | CoinCreatorAta(mint: Pubkey)
    | Wallet(key: Pubkey)

  type Balances = map<Address, u64>

  function Balance(l: Balances, a: Address): u64 {
    if a in l then l[a] else 0
  }

  function Put(l: Balances, a: Address, amount: u64): Balances {
    l[a := amount]
  }

  /** `move_lamports`: checked on both sides; `from` and `to` may be the same account. */
  function Move(l: Balances, from: Address, to: Address, amount: u64): Result<Balances> {
    if amount == 0 then
      Ok(l)
    else
      var rest :- CheckedSub64(Balance(l, from), amount);
      var l1 := Put(l, from, rest);
      var sum :- CheckedAdd64(Balance(l1, to), amount);
      Ok(Put(l1, to, sum))
  }

  /** The same move made by another program, which reports its own error. */
  function MoveBy(l: Balances, from: Address, to: Address, amount: u64, error: Error): Result<Balances> {
    match Move(l, from, to, amount)
    case Ok(moved) => Ok(moved)
    case Err(_) => Err(error)
  }

  /** A system-program transfer. */
  function Transfer(l: Balances, from: Address, to: Address, amount: u64): Result<Balances> {
    MoveBy(l, from, to, amount, SystemError)
  }

  /** Bringing an account up to a floor at the payer's expense. */
  function TopUp(l: Balances, payer: Address, to: Address, floor: u64): Result<Balances> {
    if Balance(l, to) >= floor then Ok(l) else Transfer(l, payer, to, floor - Balance(l, to))
  }

  lemma PutSum(l: Balances, a: Address, amount: u64)
    ensures Sum(Put(l, a, amount)) == Sum(l) - Balance(l, a) + amount
  {
    SumUpdate(l, a, amount);
    assert Balance(l, a) == At(l, a);
  }

  /** What a move does to every balance, and to their sum: nothing appears or disappears. */
  lemma MoveConserves(l: Balances, from: Address, to: Address, amount: u64)
    requires Move(l, from, to, amount).Ok?
    ensures var m := Move(l, from, to, amount).value;
      && Sum(m) == Sum(l)
      && amount <= Balance(l, from)
      && forall a :: Balance(m, a) == Balance(l, a) - (if a == from then amount else 0) + (if a == to then amount else 0)
  {
    if amount > 0 {
      var l1 := Put(l, from, Balance(l, from) - amount);
      PutSum(l, from, Balance(l, from) - amount);
      PutSum(l1, to, Balance(l1, to) + amount);
    }
  }

  lemma TopUpReachesFloor(l: Balances, payer: Address, to: Address, floor: u64)
    requires payer != to && TopUp(l, payer, to, floor).Ok?
    ensures var m := TopUp(l, payer, to, floor).value;
      && Sum(m) == Sum(l)
      && Balance(m, to) == (if Balance(l, to) >= floor then Balance(l, to) else floor)
      && forall a :: a != to && a != payer ==> Balance(m, a) == Balance(l, a)
  {
    if Balance(l, to) < floor {
      MoveConserves(l, payer, to, floor - Balance(l, to));
    }
  }

  /** A move is refused only when the lamports are not there, or do not fit where they go. */
  lemma MoveSucceedsExactly(l: Balances, from: Address, to: Address, amount: u64)
    requires from != to
    ensures Move(l, from, to, amount).Ok? <==>
      amount == 0 || (amount <= Balance(l, from) && Balance(l, to) + amount <= 0xFFFF_FFFF_FFFF_FFFF)
  {
  }

  /** A top-up is refused only when the payer cannot fund the shortfall. */
  lemma TopUpSucceedsExactly(l: Balances, payer: Address, to: Address, floor: u64)
    requires payer != to
    ensures TopUp(l, payer, to, floor).Ok? <==>
      Balance(l, to) >= floor || floor - Balance(l, to) <= Balance(l, payer)
  {
  }
}
