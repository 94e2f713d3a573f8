/** The token contracts: balances per token and holder, moved only by `transfer`. */
module Tokens {
  import opened Base

  datatype Holding = Holding(token: Address, holder: Address)

  type Balances = map<Holding, int>

  function BalanceOf(b: Balances, token: Address, holder: Address): int {
    if Holding(token, holder) in b then b[Holding(token, holder)] else 0
  }

  /** Every balance is a non-negative i128. */
  ghost predicate Solvent(b: Balances) {
    forall h | h in b :: 0 <= b[h] <= I128_MAX
  }

  /** A transfer debits, then credits; it is refused for a negative amount, an
      uncovered debit or a credit that does not fit. */
  function Transfer(b: Balances, token: Address, from: Address, to: Address, amount: int): (r: Result<Balances>)
    ensures r.Ok? ==>
              forall t, a ::
                BalanceOf(r.value, t, a)
                == BalanceOf(b, t, a)
                   - (if t == token && a == from then amount else 0)
                   + (if t == token && a == to then amount else 0)
    ensures r.Ok? ==> 0 <= amount
    ensures r.Ok? && Solvent(b) ==> Solvent(r.value)
    ensures Solvent(b) ==>
              (r.Ok? <==> 0 <= amount <= BalanceOf(b, token, from)
                          && (from == to || BalanceOf(b, token, to) + amount <= I128_MAX))
  {
    if amount < 0 || BalanceOf(b, token, from) < amount then Err(TransferRefused)
    else
      var debited := b[Holding(token, from) := BalanceOf(b, token, from) - amount];
      var credit := BalanceOf(debited, token, to) + amount;
      if credit > I128_MAX then Err(TransferRefused)
      else Ok(debited[Holding(token, to) := credit])
  }

  /** Exactly `amount` of one token has gone from one holder to another; every other
      balance is as it was. */
  ghost predicate Transferred(before: Balances, after: Balances, token: Address, from: Address, to: Address, amount: int) {
    forall t, a ::
      BalanceOf(after, t, a)
      == BalanceOf(before, t, a) - (if t == token && a == from then amount else 0)
                                 + (if t == token && a == to then amount else 0)
  }

  /** A request to swap, as a venue receives it. */
  datatype Call = Call(from: Address, amount: int, to: Address, minOut: int, receiver: Address)

  /** What a venue makes of it: it may refuse, and what it delivers to the receiver
      and what it reports to the caller are two amounts. */
  datatype Answer = Refuses | Answers(delivered: int, reported: i128)

  /** Venues of unknown code, by address. */
  type Foreign = map<Address, Call -> Answer>

  /** The Soroban host as contracts see it: the ledger sequence, the token
      balances, the circuit breaker's flag and whoever else answers calls. */
  class Host {
    var ledger: u32
    var balances: Balances
    var paused: bool
    var foreign: Foreign

    constructor (ledger: u32, balances: Balances, foreign: Foreign)
      ensures this.ledger == ledger && this.balances == balances && !paused && this.foreign == foreign
    {
      this.ledger, this.balances, paused, this.foreign := ledger, balances, false, foreign;
    }

    method TransferTokens(token: Address, from: Address, to: Address, amount: int) returns (r: Result<()>)
      modifies this`balances
      ensures r.Ok? == Transfer(old(balances), token, from, to, amount).Ok?
      ensures r.Ok? ==> balances == Transfer(old(balances), token, from, to, amount).value
      ensures r.Err? ==> balances == old(balances) && r.error == Transfer(old(balances), token, from, to, amount).error
    {
      var moved := Transfer(balances, token, from, to, amount);
      if moved.Err? {
        return Err(moved.error);
      }
      balances := moved.value;
      return Ok(());
    }
  }
}
