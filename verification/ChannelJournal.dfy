/** Totals over the journal of collateral movements. */
module ChannelJournal {
  import opened Base
  import opened ChannelModel

  datatype Query =
    | Deposits(id: u64)
    | Returns(id: u64)
    | Debits(id: u64)
    | Since(id: u64, from: int)               // debits at or after `from`
    | Window(id: u64, from: int, length: int) // debits in `length` ledgers from `from`
    | Vouchers(id: u64)
    | VouchersTo(id: u64, recipient: Address)

  function Part(e: Entry, q: Query): int {
    match q
    case Deposits(id) => if (e.Opened? || e.ToppedUp?) && e.id == id then e.amount else 0
    case Returns(id) => if e.Returned? && e.id == id then e.amount else 0
    case Debits(id) => if e.Debited? && e.id == id then e.amount else 0
    case Since(id, from) => if e.Debited? && e.id == id && from <= e.at then e.amount else 0
    case Window(id, from, length) =>
      if e.Debited? && e.id == id && from <= e.at < from + length then e.amount else 0
    case Vouchers(id) => if e.Vouchered? && e.id == id then e.amount else 0
    case VouchersTo(id, r) => if e.Vouchered? && e.id == id && e.recipient == r then e.amount else 0
  }

  function Total(j: seq<Entry>, q: Query): int {
    if j == [] then 0 else Total(j[..|j| - 1], q) + Part(j[|j| - 1], q)
  }

  /** The ledger at which a channel was opened. */
  function OpeningOf(j: seq<Entry>, id: u64): int {
    if j == [] then 0
    else
      var e := j[|j| - 1];
      if e.Opened? && e.id == id then e.at else OpeningOf(j[..|j| - 1], id)
  }

  lemma Append(j: seq<Entry>, e: Entry)
    ensures forall q {:trigger Total(j + [e], q)} :: Total(j + [e], q) == Total(j, q) + Part(e, q)
    ensures forall id {:trigger OpeningOf(j + [e], id)} :: OpeningOf(j + [e], id) == if e.Opened? && e.id == id then e.at else OpeningOf(j, id)
  {
    assert (j + [e])[..|j|] == j;
  }

  /** A channel without entries has no totals. */
  lemma {:induction false} NoEntries(j: seq<Entry>, id: u64, q: Query)
    requires forall i | 0 <= i < |j| :: j[i].id != id
    requires q.id == id
    ensures Total(j, q) == 0
  {
    if j != [] {
      NoEntries(j[..|j| - 1], id, q);
    }
  }

  /** If one query counts, entry by entry, no more than two others together, so do the totals. */
  lemma {:induction false} TotalLe(j: seq<Entry>, q: Query, q1: Query, q2: Query)
    requires forall i | 0 <= i < |j| :: Part(j[i], q) <= Part(j[i], q1) + Part(j[i], q2)
    ensures Total(j, q) <= Total(j, q1) + Total(j, q2)
  {
    if j != [] {
      TotalLe(j[..|j| - 1], q, q1, q2);
    }
  }
}
