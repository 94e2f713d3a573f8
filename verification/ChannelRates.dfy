/** How much a channel's on-chain payments can drain, and how fast. */
module ChannelRates {
  import opened Base
  import opened Arithmetic
  import opened ChannelModel
  import opened ChannelJournal

  /** The rate limit as a property of the payments made so far. */
  ghost predicate Paced(j: seq<Entry>, id: u64, c: Channel) {
    var length := LedgersPerPeriod(c.period);
    && OpeningOf(j, id) <= c.periodStart
    && (forall i | 0 <= i < |j| && j[i].Debited? && j[i].id == id :: j[i].at < c.periodStart + length)
    && Total(j, Since(id, c.periodStart)) == c.spent
    && Total(j, Window(id, c.periodStart - length, length)) <= c.limit
    && (forall from {:trigger Total(j, Window(id, from, length))} :: Total(j, Window(id, from, length)) <= 2 * c.limit)
    && Total(j, Debits(id)) <= Quota(c.limit, c.periodStart - OpeningOf(j, id), length) + c.spent
  }

  /** One limit for every whole period elapsed. */
  function Quota(limit: int, elapsed: int, length: int): int
    requires 0 < length
  {
    limit * (elapsed / length)
  }

  predicate SamePeriod(c: Channel, c': Channel) {
    c'.period == c.period && c'.limit == c.limit && c'.periodStart == c.periodStart
  }

  ghost predicate NonNegative(j: seq<Entry>) {
    forall i | 0 <= i < |j| :: 0 <= j[i].amount
  }

  /** Starting the next period keeps the pace. */
  lemma RollKeepsPace(j: seq<Entry>, id: u64, c: Channel, now: int)
    requires NonNegative(j) && Paced(j, id, c)
    requires RollPeriod(c, now).Ok? && c.spent <= c.limit && 0 < c.limit
    ensures Paced(j, id, RollPeriod(c, now).value)
  {
    var c' := RollPeriod(c, now).value;
    var length := LedgersPerPeriod(c.period);
    if c' != c {
      var none := Window(id, 0, 0);
      TotalLe(j, Since(id, now), none, none);
      TotalLe(j, none, Since(id, now), none);
      EmptyWindow(j, none);
      NonNegativeTotal(j, Since(id, now));
      TotalLe(j, Window(id, now - length, length), Since(id, c.periodStart), none);
      PeriodsElapsed(c.limit, c.periodStart - OpeningOf(j, id), now - OpeningOf(j, id), length);
    }
  }

  /** A window that reaches past a ledger counts no more than the window ending
      there and everything since. */
  lemma WindowSplits(j: seq<Entry>, id: u64, from: int, length: int, at: int)
    requires NonNegative(j) && at - length <= from
    ensures Total(j, Window(id, from, length)) <= Total(j, Window(id, at - length, length)) + Total(j, Since(id, at))
  {
    TotalLe(j, Window(id, from, length), Window(id, at - length, length), Since(id, at));
  }

  /** A debit within the limit keeps the pace. */
  lemma DebitKeepsPace(j: seq<Entry>, id: u64, c: Channel, c': Channel, amount: int, now: int)
    requires NonNegative(j) && Paced(j, id, c)
    requires 0 <= amount && c.spent + amount <= c.limit
    requires c.periodStart <= now < c.periodStart + LedgersPerPeriod(c.period)
    requires SamePeriod(c, c') && c'.spent == c.spent + amount
    ensures Paced(j + [Debited(id, amount, now)], id, c')
  {
    hide Total, Quota, OpeningOf, NonNegative;
    var length := LedgersPerPeriod(c.period);
    var e := Debited(id, amount, now);
    Append(j, e);
    forall from
      ensures Total(j + [e], Window(id, from, length)) <= 2 * c.limit
    {
      if from <= now < from + length {
        WindowSplits(j, id, from, length, c.periodStart);
      }
    }
  }

  /** The period roll and the debit of one payment. */
  lemma PaymentKeepsPace(j: seq<Entry>, id: u64, c: Channel, c': Channel, amount: int, now: int)
    requires NonNegative(j) && Paced(j, id, c)
    requires 0 < c.limit && 0 <= c.spent <= c.limit && c.periodStart <= now && 0 <= amount
    requires RollPeriod(c, now).Ok?
    requires var rolled := RollPeriod(c, now).value;
             rolled.spent + amount <= c.limit && SamePeriod(rolled, c') && c'.spent == rolled.spent + amount
    ensures Paced(j + [Debited(id, amount, now)], id, c')
  {
    RollKeepsPace(j, id, c, now);
    DebitKeepsPace(j, id, RollPeriod(c, now).value, c', amount, now);
  }

  /** Entries that are not this channel's debits do not matter. */
  lemma OtherEntryKeepsPace(j: seq<Entry>, id: u64, c: Channel, c': Channel, e: Entry)
    requires Paced(j, id, c) && !(e.Debited? && e.id == id) && !(e.Opened? && e.id == id)
    requires SamePeriod(c, c') && c'.spent == c.spent
    ensures Paced(j + [e], id, c')
  {
    Append(j, e);
  }

  lemma SamePeriodSamePace(j: seq<Entry>, id: u64, c: Channel, c': Channel)
    requires Paced(j, id, c) && SamePeriod(c, c') && c'.spent == c.spent
    ensures Paced(j, id, c')
  {}

  lemma OpeningKeepsPace(j: seq<Entry>, id: u64, c: Channel, e: Entry)
    requires forall i | 0 <= i < |j| :: j[i].id != id
    requires e.Opened? && e.id == id && c.periodStart == e.at && c.spent == 0 && 0 < c.limit
    ensures Paced(j + [e], id, c)
  {
    var length := LedgersPerPeriod(c.period);
    Append(j, e);
    NoEntries(j, id, Since(id, c.periodStart));
    NoEntries(j, id, Debits(id));
    forall from
      ensures Total(j, Window(id, from, length)) == 0
    {
      NoEntries(j, id, Window(id, from, length));
    }
  }

  /** What the pace means for any window, and since the opening. */
  lemma PaceBounds(j: seq<Entry>, id: u64, c: Channel, now: int, from: int)
    requires Paced(j, id, c) && 0 < c.limit && c.spent <= c.limit && c.periodStart <= now
    ensures var length := LedgersPerPeriod(c.period);
            && Total(j, Window(id, from, length)) <= 2 * c.limit
            && OpeningOf(j, id) <= now
            && Total(j, Debits(id)) <= c.limit * ((now - OpeningOf(j, id)) / length + 1)
  {
    hide Total, OpeningOf;
    var o, length := OpeningOf(j, id), LedgersPerPeriod(c.period);
    LifetimeBound(c.limit, Total(j, Debits(id)), c.spent, c.periodStart - o, now - o, length);
  }

  lemma LifetimeBound(limit: int, debits: int, spent: int, before: int, after: int, length: int)
    requires 0 < limit && spent <= limit && 0 < length && before <= after
    requires debits <= limit * (before / length) + spent
    ensures debits <= limit * (after / length + 1)
  {
    DivLe(before, after, length);
    var p, q := before / length, after / length;
    MulLe(p, q, limit);
    assert limit * (q + 1) == limit * q + limit;
  }

  lemma {:induction false} NonNegativeTotal(j: seq<Entry>, q: Query)
    requires NonNegative(j)
    ensures 0 <= Total(j, q)
  {
    if j != [] {
      NonNegativeTotal(j[..|j| - 1], q);
    }
  }

  lemma {:induction false} EmptyWindow(j: seq<Entry>, q: Query)
    requires q.Window? && q.length == 0
    ensures Total(j, q) == 0
  {
    if j != [] {
      EmptyWindow(j[..|j| - 1], q);
    }
  }

  lemma PeriodsElapsed(limit: int, before: int, after: int, length: int)
    requires 0 < limit && 0 < length && before + length <= after
    ensures limit * (before / length) + limit <= limit * (after / length)
  {
    DivAdd(before, length, 1);
    DivLe(before + length, after, length);
    MulLe(before / length + 1, after / length, limit);
  }
}
