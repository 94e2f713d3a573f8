/** The rate limiter's ring of spend buckets, and the payment log it stands for. */
module RateLimiter {
  import opened Base
  import opened Arithmetic

  const LEDGERS_PER_HOUR: int := 720

  datatype Bucket = Bucket(start: int, spend: int, txs: int)

  datatype Payment = Payment(ledger: int, amount: int)

  // ---- The log, as the reference ----

  /** Total paid at ledgers in [from, to). */
  function Paid(log: seq<Payment>, from: int, to: int): int {
    if log == [] then 0
    else
      var p := log[|log| - 1];
      Paid(log[..|log| - 1], from, to) + if from <= p.ledger < to then p.amount else 0
  }

  /** Number of payments at ledgers in [from, to). */
  function PaidCount(log: seq<Payment>, from: int, to: int): int {
    if log == [] then 0
    else PaidCount(log[..|log| - 1], from, to) + if from <= log[|log| - 1].ledger < to then 1 else 0
  }

  lemma PaidAppend(log: seq<Payment>, p: Payment)
    ensures forall from, to {:trigger Paid(log + [p], from, to)} ::
              Paid(log + [p], from, to) == Paid(log, from, to) + if from <= p.ledger < to then p.amount else 0
    ensures forall from, to {:trigger PaidCount(log + [p], from, to)} ::
              PaidCount(log + [p], from, to) == PaidCount(log, from, to) + if from <= p.ledger < to then 1 else 0
  {
    assert (log + [p])[..|log|] == log;
  }

  lemma {:induction false} PaidSplits(log: seq<Payment>, from: int, mid: int, to: int)
    requires from <= mid <= to
    ensures Paid(log, from, to) == Paid(log, from, mid) + Paid(log, mid, to)
    ensures PaidCount(log, from, to) == PaidCount(log, from, mid) + PaidCount(log, mid, to)
  {
    if log != [] {
      PaidSplits(log[..|log| - 1], from, mid, to);
    }
  }

  /** Payments past the end of the log do not count, so any later end will do. */
  lemma {:induction false} PaidBeyond(log: seq<Payment>, from: int, to: int, later: int)
    requires to <= later && forall i | 0 <= i < |log| :: log[i].ledger < to
    ensures Paid(log, from, later) == Paid(log, from, to)
    ensures PaidCount(log, from, later) == PaidCount(log, from, to)
  {
    if log != [] {
      PaidBeyond(log[..|log| - 1], from, to, later);
    }
  }

  lemma {:induction false} NothingPaid(log: seq<Payment>, from: int, to: int)
    requires forall i | 0 <= i < |log| :: log[i].ledger < from
    ensures Paid(log, from, to) == 0 && PaidCount(log, from, to) == 0
  {
    if log != [] {
      NothingPaid(log[..|log| - 1], from, to);
    }
  }

  // ---- The ring ----

  function BucketStart(now: int, size: int): int
    requires 0 < size
  {
    now / size * size
  }

  /** Where bucket `i` of `n` begins when the newest one begins at `last`. */
  function Slot(last: int, n: int, i: int, size: int): int {
    last - (n - 1 - i) * size
  }

  /** Every bucket holds what the log has for its slot, and the log has nothing later. */
  ghost predicate Refines(b: seq<Bucket>, log: seq<Payment>, size: int) {
    && b != [] && 0 < size
    && var n, last := |b|, b[|b| - 1].start;
       && (forall i | 0 <= i < n ::
             && b[i].spend == Paid(log, Slot(last, n, i, size), Slot(last, n, i, size) + size)
             && b[i].txs == PaidCount(log, Slot(last, n, i, size), Slot(last, n, i, size) + size))
       && (forall i | 0 <= i < |log| :: log[i].ledger < last + size)
  }

  /** Dropping the oldest bucket and pushing a fresh one still mirrors the log. */
  lemma RotateRefines(b: seq<Bucket>, log: seq<Payment>, size: int)
    requires Refines(b, log, size)
    ensures Refines(b[1..] + [Bucket(b[|b| - 1].start + size, 0, 0)], log, size)
  {
    hide Paid, PaidCount;
    var n, last := |b|, b[|b| - 1].start;
    var b' := b[1..] + [Bucket(last + size, 0, 0)];
    forall i | 0 <= i < n
      ensures b'[i].spend == Paid(log, Slot(last + size, n, i, size), Slot(last + size, n, i, size) + size)
      ensures b'[i].txs == PaidCount(log, Slot(last + size, n, i, size), Slot(last + size, n, i, size) + size)
    {
      if i < n - 1 {
        assert Slot(last + size, n, i, size) == Slot(last, n, i + 1, size);
        assert b'[i] == b[i + 1];
      } else {
        NothingPaid(log, last + size, last + 2 * size);
      }
    }
  }

  /** Adding a payment of the current slot to the newest bucket mirrors appending it to the log. */
  lemma AddRefines(b: seq<Bucket>, log: seq<Payment>, size: int, p: Payment)
    requires Refines(b, log, size)
    requires b[|b| - 1].start <= p.ledger < b[|b| - 1].start + size
    ensures var last := b[|b| - 1];
            Refines(b[|b| - 1 := Bucket(last.start, last.spend + p.amount, last.txs + 1)], log + [p], size)
  {
    var n, last := |b|, b[|b| - 1].start;
    PaidAppend(log, p);
    forall i | 0 <= i < n - 1
      ensures Slot(last, n, i, size) + size <= last
    {
      MulLe(1, n - 1 - i, size);
    }
  }

  /** The first payment finds an empty ring, whatever its slots were aligned to. */
  lemma RealignRefines(b: seq<Bucket>, size: int, start: int)
    requires Refines(b, [], size)
    ensures Refines(b[|b| - 1 := Bucket(start, 0, 0)], [], size)
  {}

  /** What the newest bucket holds before the payment. */
  lemma NewestBucket(b: seq<Bucket>, log: seq<Payment>, size: int, start: int)
    requires Refines(b, log, size)
    ensures b[|b| - 1].start == start ==>
              b[|b| - 1].spend == Paid(log, start, start + size) && b[|b| - 1].txs == PaidCount(log, start, start + size)
    ensures log == [] ==> Paid(log, start, start + size) == 0 && PaidCount(log, start, start + size) == 0
  {
    assert Slot(b[|b| - 1].start, |b|, |b| - 1, size) == b[|b| - 1].start;
  }

  /** The bucket of `start` can take one more payment of this amount. */
  predicate Fits(log: seq<Payment>, start: int, size: int, amount: int) {
    && -I128_MAX - 1 <= Paid(log, start, start + size) + amount <= I128_MAX
    && PaidCount(log, start, start + size) + 1 <= U32_MAX
  }

  /** Either way the newest bucket ends up with the payment and the current slot. */
  lemma CurrentRefines(b: seq<Bucket>, log: seq<Payment>, size: int, p: Payment)
    requires b != [] && 0 < size && Refines(b, log, size)
    requires log != [] ==> b[|b| - 1].start == BucketStart(p.ledger, size)
    ensures var last, start := b[|b| - 1], BucketStart(p.ledger, size);
            var current := if last.start != start then Bucket(start, 0, 0) else last;
            Refines(b[|b| - 1 := Bucket(start, current.spend + p.amount, current.txs + 1)], log + [p], size)
  {
    hide Refines, BucketStart, Slot;
    var n, last, start := |b|, b[|b| - 1], BucketStart(p.ledger, size);
    WindowReach(p.ledger, n, size);
    var current := if last.start != start then Bucket(start, 0, 0) else last;
    if last.start != start {
      assert log == [];
      RealignRefines(b, size, start);
    } else {
      assert b[n - 1 := current] == b;
    }
    var realigned := b[n - 1 := current];
    AddRefines(realigned, log, size, p);
    assert realigned[n - 1 := Bucket(start, current.spend + p.amount, current.txs + 1)]
        == b[n - 1 := Bucket(start, current.spend + p.amount, current.txs + 1)];
  }

  lemma SlotSteps(last: int, n: int, k: int, size: int)
    requires 1 <= k && 0 < size
    ensures Slot(last, n, k, size) == Slot(last, n, k - 1, size) + size
    ensures Slot(last, n, 0, size) <= Slot(last, n, k - 1, size)
  {
    assert Slot(last, n, k - 1, size) == Slot(last, n, 0, size) + (k - 1) * size;
    MulLe(0, k - 1, size);
  }

  /** The first `k` buckets together hold the log of their slots. */
  lemma {:induction false} PrefixTotals(b: seq<Bucket>, log: seq<Payment>, size: int, k: nat)
    requires Refines(b, log, size) && k <= |b|
    ensures var n, last := |b|, b[|b| - 1].start;
            && SumSpends(b[..k]) == Paid(log, Slot(last, n, 0, size), Slot(last, n, k, size))
            && SumTxs(b[..k]) == PaidCount(log, Slot(last, n, 0, size), Slot(last, n, k, size))
  {
    hide Slot, Paid, PaidCount;
    var n, last := |b|, b[|b| - 1].start;
    if k == 0 {
      EmptyRange(log, Slot(last, n, 0, size));
    } else {
      PrefixTotals(b, log, size, k - 1);
      assert b[..k][..k - 1] == b[..k - 1];
      SlotSteps(last, n, k, size);
      PaidSplits(log, Slot(last, n, 0, size), Slot(last, n, k - 1, size), Slot(last, n, k, size));
    }
  }

  lemma {:induction false} EmptyRange(log: seq<Payment>, at: int)
    ensures Paid(log, at, at) == 0 && PaidCount(log, at, at) == 0
  {
    if log != [] {
      EmptyRange(log[..|log| - 1], at);
    }
  }

  function SumSpends(b: seq<Bucket>): int {
    if b == [] then 0 else SumSpends(b[..|b| - 1]) + b[|b| - 1].spend
  }

  function SumTxs(b: seq<Bucket>): int {
    if b == [] then 0 else SumTxs(b[..|b| - 1]) + b[|b| - 1].txs
  }

  /** The ring's window, seen from ledger `now`: it reaches back over at least
      the last (n-1)*size+1 ledgers and over fewer than n*size. */
  lemma WindowReach(now: int, n: int, size: int)
    requires 0 < n && 0 < size
    ensures now - n * size < Slot(BucketStart(now, size), n, 0, size) <= now - (n - 1) * size
    ensures BucketStart(now, size) <= now < BucketStart(now, size) + size
  {
    assert now == now / size * size + now % size;
    assert (n - 1) * size == n * size - size;
  }

  ghost predicate NonNegative(log: seq<Payment>) {
    forall i | 0 <= i < |log| :: 0 <= log[i].amount
  }

  ghost predicate InOrder(log: seq<Payment>) {
    forall i, j | 0 <= i <= j < |log| :: log[i].ledger <= log[j].ledger
  }

  lemma {:induction false} CountGrows(log: seq<Payment>, from: int, to: int, from': int, to': int)
    requires from' <= from && to <= to'
    ensures 0 <= PaidCount(log, from, to) <= PaidCount(log, from', to')
  {
    if log != [] {
      CountGrows(log[..|log| - 1], from, to, from', to');
    }
  }

  lemma {:induction false} PaidIsNotNegative(log: seq<Payment>, from: int, to: int)
    requires NonNegative(log)
    ensures 0 <= Paid(log, from, to)
  {
    if log != [] {
      PaidIsNotNegative(log[..|log| - 1], from, to);
    }
  }

  /** What the ring holds at `now` is the last (n-1)*size+1 ledgers and, before
      them, part of the one slot that n*size ledgers still reach. Counts, and
      spends without credits, are bracketed by those two windows. */
  lemma WindowBrackets(log: seq<Payment>, n: int, size: int, now: int)
    requires 0 < n && 0 < size
    ensures var start, recent, oldest := Slot(BucketStart(now, size), n, 0, size), now - (n - 1) * size, now - n * size + 1;
            && oldest <= start <= recent
            && Paid(log, start, now + 1) == Paid(log, start, recent) + Paid(log, recent, now + 1)
            && Paid(log, oldest, now + 1) == Paid(log, oldest, start) + Paid(log, start, now + 1)
            && PaidCount(log, recent, now + 1) <= PaidCount(log, start, now + 1) <= PaidCount(log, oldest, now + 1)
            && (NonNegative(log) ==> Paid(log, recent, now + 1) <= Paid(log, start, now + 1) <= Paid(log, oldest, now + 1))
  {
    hide Paid, PaidCount, BucketStart, Slot, NonNegative;
    WindowReach(now, n, size);
    var start, recent, oldest := Slot(BucketStart(now, size), n, 0, size), now - (n - 1) * size, now - n * size + 1;
    MulLe(0, n - 1, size);
    PaidSplits(log, start, recent, now + 1);
    PaidSplits(log, oldest, start, now + 1);
    CountGrows(log, recent, now + 1, start, now + 1);
    CountGrows(log, start, now + 1, oldest, now + 1);
    if NonNegative(log) {
      PaidIsNotNegative(log, start, recent);
      PaidIsNotNegative(log, oldest, start);
    }
  }

  /** Each payment was let through by the spend test on the ring brought up to
      its ledger. */
  ghost predicate Admitted(log: seq<Payment>, n: int, size: int, limit: int)
    requires 0 < n && 0 < size
  {
    forall i | 0 <= i < |log| ::
      Paid(log[..i], Slot(BucketStart(log[i].ledger, size), n, 0, size), log[i].ledger + 1) + log[i].amount <= limit
  }

  /** What the ring still counted from before `from` when the last payment of
      [from, to) was tested; zero when there is none. */
  function CarriedIn(log: seq<Payment>, n: int, size: int, from: int, to: int): int
    requires 0 < n && 0 < size
  {
    if log == [] then 0
    else
      var last, before := log[|log| - 1], log[..|log| - 1];
      if from <= last.ledger < to then Paid(before, Slot(BucketStart(last.ledger, size), n, 0, size), from)
      else CarriedIn(before, n, size, from, to)
  }

  lemma AdmittedPrefix(log: seq<Payment>, n: int, size: int, limit: int)
    requires 0 < n && 0 < size && log != []
    requires InOrder(log) && Admitted(log, n, size, limit)
    ensures var before, last := log[..|log| - 1], log[|log| - 1];
            && InOrder(before) && Admitted(before, n, size, limit)
            && (forall i | 0 <= i < |before| :: before[i].ledger < last.ledger + 1)
            && Paid(before, Slot(BucketStart(last.ledger, size), n, 0, size), last.ledger + 1) + last.amount <= limit
  {
    hide BucketStart, Slot, Paid;
    var before := log[..|log| - 1];
    assert forall i | 0 <= i < |before| :: before[..i] == log[..i];
  }

  lemma PaidLast(log: seq<Payment>, from: int, to: int)
    requires log != []
    ensures var last := log[|log| - 1];
            Paid(log, from, to) == Paid(log[..|log| - 1], from, to) + if from <= last.ledger < to then last.amount else 0
  {}

  /** What the spend test guarantees of any (n-1)*size+1 consecutive ledgers: what
      they hold and what the ring carried into them together stay within the limit. */
  lemma {:induction false} AdmittedStaysUnderLimit(log: seq<Payment>, n: int, size: int, limit: int, from: int)
    requires 0 < n && 0 < size && 0 <= limit
    requires InOrder(log) && Admitted(log, n, size, limit)
    ensures var to := from + (n - 1) * size + 1;
            Paid(log, from, to) + CarriedIn(log, n, size, from, to) <= limit
  {
    var to := from + (n - 1) * size + 1;
    if log != [] {
      hide BucketStart, Slot, Paid, InOrder, Admitted;
      var last, before := log[|log| - 1], log[..|log| - 1];
      AdmittedPrefix(log, n, size, limit);
      PaidLast(log, from, to);
      if from <= last.ledger < to {
        WindowReach(last.ledger, n, size);
        PaidBeyond(before, from, last.ledger + 1, to);
        PaidSplits(before, Slot(BucketStart(last.ledger, size), n, 0, size), from, last.ledger + 1);
      } else {
        AdmittedStaysUnderLimit(before, n, size, limit, from);
      }
    }
  }

  /** The guard the ring is for: without credits no (n-1)*size+1 consecutive ledgers
      ever hold more than the limit. */
  lemma NoWindowExceedsLimit(log: seq<Payment>, n: int, size: int, limit: int, from: int)
    requires 0 < n && 0 < size && 0 <= limit
    requires InOrder(log) && Admitted(log, n, size, limit) && NonNegative(log)
    ensures Paid(log, from, from + (n - 1) * size + 1) <= limit
  {
    hide Paid;
    AdmittedStaysUnderLimit(log, n, size, limit, from);
    NothingNegativeCarried(log, n, size, from, from + (n - 1) * size + 1);
  }

  lemma {:induction false} NothingNegativeCarried(log: seq<Payment>, n: int, size: int, from: int, to: int)
    requires 0 < n && 0 < size && NonNegative(log)
    ensures 0 <= CarriedIn(log, n, size, from, to)
  {
    if log != [] {
      var last, before := log[|log| - 1], log[..|log| - 1];
      PaidIsNotNegative(before, Slot(BucketStart(last.ledger, size), n, 0, size), from);
      NothingNegativeCarried(before, n, size, from, to);
    }
  }

  // ---- When credits lift the limit ----

  /** One more payment is let through exactly when the ring has room for it. */
  lemma AppendAdmittedIff(log: seq<Payment>, n: int, size: int, limit: int, p: Payment)
    requires 0 < n && 0 < size && Admitted(log, n, size, limit)
    ensures Admitted(log + [p], n, size, limit) <==>
              Paid(log, Slot(BucketStart(p.ledger, size), n, 0, size), p.ledger + 1) + p.amount <= limit
  {
    hide BucketStart, Slot, Paid;
    var longer := log + [p];
    assert longer[|log|] == p && longer[..|log|] == log;
    assert forall i | 0 <= i < |log| :: longer[i] == log[i] && longer[..i] == log[..i];
  }

  /** A run of payments of at most `cap` each, at ledgers in [from, to). */
  ghost predicate Continuation(ext: seq<Payment>, from: int, to: int, cap: int) {
    && InOrder(ext)
    && forall i | 0 <= i < |ext| :: from <= ext[i].ledger < to && ext[i].amount <= cap
  }

  /** As much as the ring has room for can be paid at one ledger, in payments of at
      most `cap`. */
  lemma {:induction false} Fill(log: seq<Payment>, n: int, size: int, limit: int, cap: int, at: int, total: nat)
    returns (ext: seq<Payment>)
    requires 0 < n && 0 < size && 0 < cap && Admitted(log, n, size, limit)
    requires Paid(log, Slot(BucketStart(at, size), n, 0, size), at + 1) + total <= limit
    ensures Continuation(ext, at, at + 1, cap) && Admitted(log + ext, n, size, limit)
    ensures forall from, to | from <= at < to :: Paid(log + ext, from, to) == Paid(log, from, to) + total
    decreases total
  {
    hide BucketStart, Slot, Paid, Admitted;
    WindowReach(at, n, size);
    MulLe(0, n - 1, size);
    if total == 0 {
      ext := [];
      assert log + ext == log;
    } else {
      var p := Payment(at, Min(cap, total));
      AppendAdmittedIff(log, n, size, limit, p);
      PaidAppend(log, p);
      var rest := Fill(log + [p], n, size, limit, cap, at, total - p.amount);
      ext := [p] + rest;
      assert log + ext == log + [p] + rest;
    }
  }

  /** Payments at or after `from` do not count before it. */
  lemma {:induction false} LaterDoesNotCount(log: seq<Payment>, ext: seq<Payment>, start: int, from: int)
    requires forall i | 0 <= i < |ext| :: from <= ext[i].ledger
    ensures Paid(log + ext, start, from) == Paid(log, start, from)
  {
    if ext == [] {
      assert log + ext == log;
    } else {
      var before, last := ext[..|ext| - 1], ext[|ext| - 1];
      assert log + ext == log + before + [last];
      PaidAppend(log + before, last);
      LaterDoesNotCount(log, before, start, from);
    }
  }

  /** A ledger of the window at which the ring still counts more credit than spend
      from before it: something a caller can read off the ring beforehand. */
  ghost predicate OwesCredit(log: seq<Payment>, n: int, size: int, from: int, at: int)
    requires 0 < n && 0 < size
  {
    Paid(log, Slot(BucketStart(at, size), n, 0, size), from) < 0
  }

  lemma CreditMakesRoom(log: seq<Payment>, n: int, size: int, limit: int, cap: int, from: int, at: int) returns (ext: seq<Payment>)
    requires 0 < n && 0 < size && 0 <= limit && 0 < cap && Admitted(log, n, size, limit)
    requires forall i | 0 <= i < |log| :: log[i].ledger < from
    requires from <= at < from + (n - 1) * size + 1 && OwesCredit(log, n, size, from, at)
    ensures Continuation(ext, from, from + (n - 1) * size + 1, cap) && Admitted(log + ext, n, size, limit)
    ensures Paid(log + ext, from, from + (n - 1) * size + 1) > limit
  {
    hide BucketStart, Slot, Paid, Admitted;
    var to, start := from + (n - 1) * size + 1, Slot(BucketStart(at, size), n, 0, size);
    PaidBeyond(log, start, from, at + 1);
    NothingPaid(log, from, to);
    ext := Fill(log, n, size, limit, cap, at, limit - Paid(log, start, from));
  }

  lemma CarriedLast(log: seq<Payment>, n: int, size: int, from: int, to: int)
    requires 0 < n && 0 < size && log != [] && from <= log[|log| - 1].ledger < to
    ensures var last, before := log[|log| - 1], log[..|log| - 1];
            CarriedIn(log, n, size, from, to) == Paid(before, Slot(BucketStart(last.ledger, size), n, 0, size), from)
  {
    hide Paid, BucketStart, Slot;
  }

  lemma OrderContinues(log: seq<Payment>, ext: seq<Payment>, from: int, to: int, cap: int)
    requires InOrder(log) && Continuation(ext, from, to, cap) && forall i | 0 <= i < |log| :: log[i].ledger < from
    ensures InOrder(log + ext)
  {
    var all := log + ext;
    forall i, j | 0 <= i <= j < |all|
      ensures all[i].ledger <= all[j].ledger
    {
      assert i < |log| ==> all[i] == log[i];
      assert j < |log| ==> all[j] == log[j];
      assert |log| <= i ==> all[i] == ext[i - |log|];
      assert |log| <= j ==> all[j] == ext[j - |log|];
    }
  }

  lemma LastIsInside(ext: seq<Payment>, from: int, to: int, cap: int)
    requires Continuation(ext, from, to, cap)
    ensures ext != [] ==> from <= ext[|ext| - 1].ledger < to
    ensures forall i | 0 <= i < |ext| :: from <= ext[i].ledger
  {}

  lemma ExcessOwesCredit(log: seq<Payment>, n: int, size: int, limit: int, cap: int, from: int, to: int, ext: seq<Payment>)
    requires 0 < n && 0 < size && 0 <= limit && InOrder(log) && to == from + (n - 1) * size + 1
    requires forall i | 0 <= i < |log| :: log[i].ledger < from
    requires Continuation(ext, from, to, cap) && Admitted(log + ext, n, size, limit) && Paid(log + ext, from, to) > limit
    ensures ext != [] && OwesCredit(log, n, size, from, ext[|ext| - 1].ledger)
  {
    hide Paid, BucketStart, Slot, Admitted, InOrder, Continuation, CarriedIn;
    var all := log + ext;
    LastIsInside(ext, from, to, cap);
    OrderContinues(log, ext, from, to, cap);
    AdmittedStaysUnderLimit(all, n, size, limit, from);
    if ext == [] {
      assert all == log;
      NothingPaid(log, from, to);
    } else {
      var last, before := ext[|ext| - 1], ext[..|ext| - 1];
      assert all[|all| - 1] == last && all[..|all| - 1] == log + before;
      CarriedLast(all, n, size, from, to);
      LaterDoesNotCount(log, before, Slot(BucketStart(last.ledger, size), n, 0, size), from);
    }
  }

  /** Exactly when the spend test lets (n-1)*size+1 consecutive ledgers go over the
      limit, in payments none of which exceeds the per-transaction cap: when at some
      ledger of the window the ring owes credit from before it. */
  lemma WindowCanExceedIff(log: seq<Payment>, n: int, size: int, limit: int, cap: int, from: int)
    requires 0 < n && 0 < size && 0 < cap <= limit && InOrder(log) && Admitted(log, n, size, limit)
    requires forall i | 0 <= i < |log| :: log[i].ledger < from
    ensures var to := from + (n - 1) * size + 1;
            (exists ext :: Continuation(ext, from, to, cap) && Admitted(log + ext, n, size, limit) && Paid(log + ext, from, to) > limit)
            <==> exists at | from <= at < to :: OwesCredit(log, n, size, from, at)
  {
    hide Paid, Admitted, Continuation, OwesCredit, BucketStart, Slot;
    var to := from + (n - 1) * size + 1;
    if at :| from <= at < to && OwesCredit(log, n, size, from, at) {
      var ext := CreditMakesRoom(log, n, size, limit, cap, from, at);
    }
    if ext :| Continuation(ext, from, to, cap) && Admitted(log + ext, n, size, limit) && Paid(log + ext, from, to) > limit {
      ExcessOwesCredit(log, n, size, limit, cap, from, to, ext);
      LastIsInside(ext, from, to, cap);
    }
  }

  /** The same for a single uncapped payment at the window's first ledger. */
  lemma NextPaymentExceedsIff(log: seq<Payment>, n: int, size: int, limit: int, from: int)
    requires 0 < n && 0 < size && 0 <= limit && Admitted(log, n, size, limit)
    requires forall i | 0 <= i < |log| :: log[i].ledger < from
    ensures (exists p: Payment :: p.ledger == from && Admitted(log + [p], n, size, limit)
                                  && Paid(log + [p], from, from + (n - 1) * size + 1) > limit)
            <==> OwesCredit(log, n, size, from, from)
  {
    hide BucketStart, Slot, Paid, Admitted;
    var to, start := from + (n - 1) * size + 1, Slot(BucketStart(from, size), n, 0, size);
    MulLe(0, n - 1, size);
    PaidBeyond(log, start, from, from + 1);
    NothingPaid(log, from, to);
    forall p: Payment | p.ledger == from
      ensures Admitted(log + [p], n, size, limit) <==> Paid(log, start, from) + p.amount <= limit
      ensures Paid(log + [p], from, to) == p.amount
    {
      AppendAdmittedIff(log, n, size, limit, p);
      PaidAppend(log, p);
    }
    if OwesCredit(log, n, size, from, from) {
      var p := Payment(from, limit - Paid(log, start, from));
      assert Admitted(log + [p], n, size, limit) && Paid(log + [p], from, to) > limit;
    }
  }

  /** For instance: ten back at ledger 0 admit three payments of five at ledger 1,
      under a limit of five. */
  lemma CreditsLiftTheLimit()
    ensures var log := [Payment(0, -10), Payment(1, 5), Payment(1, 5), Payment(1, 5)];
            InOrder(log) && Admitted(log, 1, LEDGERS_PER_HOUR, 5) && Paid(log, 1, 2) == 15
  {
    hide Paid, BucketStart, Slot;
    var log := [Payment(0, -10), Payment(1, 5), Payment(1, 5), Payment(1, 5)];
    FirstSlot();
    assert log[..0] == [] && log[..4] == log;
    assert log[..1][..0] == log[..0] && log[..2][..1] == log[..1] && log[..3][..2] == log[..2] && log[..4][..3] == log[..3];
    forall from, to
      ensures Paid(log[..0], from, to) == 0
      ensures Paid(log[..1], from, to) == if from <= 0 < to then -10 else 0
      ensures Paid(log[..2], from, to) == Paid(log[..1], from, to) + if from <= 1 < to then 5 else 0
      ensures Paid(log[..3], from, to) == Paid(log[..2], from, to) + if from <= 1 < to then 5 else 0
      ensures Paid(log[..4], from, to) == Paid(log[..3], from, to) + if from <= 1 < to then 5 else 0
    {
      NoPayments(from, to);
      PaidLast(log[..1], from, to);
      PaidLast(log[..2], from, to);
      PaidLast(log[..3], from, to);
      PaidLast(log[..4], from, to);
    }
  }

  lemma FirstSlot()
    ensures Slot(BucketStart(0, LEDGERS_PER_HOUR), 1, 0, LEDGERS_PER_HOUR) == 0
    ensures Slot(BucketStart(1, LEDGERS_PER_HOUR), 1, 0, LEDGERS_PER_HOUR) == 0
  {}

  lemma NoPayments(from: int, to: int)
    ensures Paid([], from, to) == 0
  {}

  /** Where the newest bucket ends up when the ring rotates from `last` to `start`. */
  function Landing(last: int, start: int, size: int): int
    requires 0 < size
    decreases start - last
  {
    if last >= start then last else Landing(last + size, start, size)
  }

  /** On slots aligned alike the ring lands exactly where it should. */
  lemma {:induction false} LandsOnStart(last: int, start: int, size: int)
    requires 0 < size && last % size == 0 && start % size == 0 && last <= start
    ensures Landing(last, start, size) == start
    decreases start - last
  {
    if last < start {
      MultiplesStep(last, start, size);
      LandsOnStart(last + size, start, size);
    }
  }

  lemma {:induction false} LandsFurther(last: int, start: int, size: int)
    requires 0 < size
    ensures last <= Landing(last, start, size)
    decreases start - last
  {
    if last < start {
      LandsFurther(last + size, start, size);
    }
  }

  class BucketRing {
    const count: nat
    var buckets: seq<Bucket>
    ghost var log: seq<Payment>  // payments recorded since the ring was built
    ghost var clock: u32         // the last ledger at which the ring was touched

    /** Ledgers per bucket; zero when there are more buckets than ledgers. */
    function Size(): (size: nat)
      requires 0 < count
      ensures size * count <= 720 < (size + 1) * count
    {
      LEDGERS_PER_HOUR / count
    }

    ghost predicate Valid()
      reads this
    {
      && 0 < count && |buckets| == count
      && (forall i | 0 <= i < |log| :: log[i].ledger <= clock)
      && buckets[count - 1].start <= U32_MAX
      && (0 < Size() ==>
            && Refines(buckets, log, Size())
            && (log != [] ==> buckets[count - 1].start == BucketStart(clock, Size())))
      && (Size() == 0 ==> forall i | 0 <= i < count :: buckets[i].spend == 0 && buckets[i].txs == 0)
    }

    constructor (now: u32, count: nat)
      requires 0 < count
      ensures Valid() && this.count == count && log == [] && clock == now
    {
      this.count := count;
      buckets := seq(count, _ => Bucket(now, 0, 0));
      log, clock := [], now;
    }

    /** Setting or updating the limits forgets the payments so far. */
    method Rebuild(now: u32)
      requires Valid() && clock <= now
      modifies this
      ensures Valid() && log == [] && clock == now
    {
      var rebuilt := [];
      for i := 0 to count
        invariant rebuilt == seq(i, _ => Bucket(now, 0, 0))
      {
        rebuilt := rebuilt + [Bucket(now, 0, 0)];
      }
      buckets := rebuilt;
      log, clock := [], now;
    }

    /** Where rotating to `now` takes the newest bucket. */
    ghost function LandingAt(now: u32): int
      requires Valid()
      reads this
    {
      if Size() == 0 then 0 else Landing(buckets[count - 1].start, BucketStart(now, Size()), Size())
    }

    /** A ring that holds a payment always lands on the slot of `now`. */
    lemma LandsInTime(now: u32)
      requires Valid() && clock <= now && log != []
      ensures LandingAt(now) <= now
    {
      if 0 < Size() {
        StartsAreOrdered(clock, now, Size());
        LandsOnStart(buckets[count - 1].start, BucketStart(now, Size()), Size());
      }
    }

    /** Rotates until the newest bucket covers `now`; the log is untouched. Refused
        exactly when that takes it past the last ledger there is, which only an
        empty ring, whose slots start wherever it was built, can do. */
    method Advance(now: u32) returns (r: Result<()>)
      requires Valid() && clock <= now
      modifies this`buckets, this`clock
      ensures Valid()
      ensures r.Ok? ==> clock == now
      ensures r.Err? ==> buckets == old(buckets) && clock == old(clock)
      ensures r.Ok? <==> old(LandingAt(now)) <= U32_MAX
      ensures r.Err? ==> log == []
    {
      hide Refines, Paid, PaidCount, BucketStart;
      var size := Size();
      if size == 0 {
        clock := now;
        return Ok(());
      }
      var start := BucketStart(now, size);
      StartsAreOrdered(clock, now, size);
      ghost var landing := LandingAt(now);
      var ring := buckets;
      while ring[count - 1].start < start
        invariant |ring| == count && Refines(ring, log, size)
        invariant buckets == old(buckets) && clock == old(clock)
        invariant ring[count - 1].start <= U32_MAX && landing == Landing(ring[count - 1].start, start, size)
        invariant log != [] ==> ring[count - 1].start <= start && ring[count - 1].start % size == 0
        decreases start - ring[count - 1].start
      {
        if log != [] {
          MultiplesStep(ring[count - 1].start, start, size);
        }
        if ring[count - 1].start + size > U32_MAX {
          LandsFurther(ring[count - 1].start + size, start, size);
          return Err(Overflow);
        }
        RotateRefines(ring, log, size);
        ring := Rotate(ring, size);
      }
      buckets := ring;
      clock := now;
      return Ok(());
    }

    /** Records a payment: the ring now stands for the log with it appended. It is
        refused exactly when its own bucket cannot hold it or the ring cannot be
        brought up to its ledger, and the latter only before anything was recorded. */
    method Record(now: u32, amount: i128) returns (r: Result<()>)
      requires Valid() && clock <= now
      modifies this
      ensures Valid()
      ensures r.Ok? ==> log == old(log) + [Payment(now, amount)] && clock == now
      ensures r.Err? ==> log == old(log) && clock == old(clock) && buckets == old(buckets)
      ensures r.Ok? <==> Size() == 0 || (old(LandingAt(now)) <= U32_MAX && Fits(old(log), BucketStart(now, Size()), Size(), amount))
      ensures old(log) != [] ==> old(LandingAt(now)) <= now
    {
      hide Refines, Paid, PaidCount, BucketStart, Fits;
      if log != [] {
        LandsInTime(now);
      }
      var saved := buckets;
      ghost var before := clock;
      r := Advance(now);
      if r.Ok? {
        r := AddToCurrent(now, amount);
        if r.Err? {
          buckets, clock := saved, before;
        }
      }
    }

    method AddToCurrent(now: u32, amount: i128) returns (r: Result<()>)
      requires Valid() && clock == now
      modifies this`buckets, this`log
      ensures Valid()
      ensures r.Ok? ==> log == old(log) + [Payment(now, amount)]
      ensures r.Err? ==> log == old(log) && buckets == old(buckets)
      ensures 0 < Size() ==> (r.Ok? <==> Fits(old(log), BucketStart(now, Size()), Size(), amount))
      ensures Size() == 0 ==> r.Ok?
    {
      hide Refines, BucketStart, Paid, PaidCount;
      ghost var p := Payment(now, amount);
      var size := Size();
      if size == 0 {
        log := log + [p];
        return Ok(());
      }
      var start := BucketStart(now, size);
      var last := buckets[count - 1];
      StartsAreOrdered(now, now, size);
      CurrentRefines(buckets, log, size, p);
      NewestBucket(buckets, log, size, start);
      if last.start != start {
        last := Bucket(start, 0, 0);
      }
      var spend, txs := last.spend + amount, last.txs + 1;
      if spend < -I128_MAX - 1 || spend > I128_MAX || txs > U32_MAX {
        return Err(Overflow);
      }
      buckets := buckets[count - 1 := Bucket(start, spend, txs)];
      log := log + [p];
      return Ok(());
    }

    /** The ring's spend is the log's over the window that ends now. */
    method SumSpend() returns (r: Result<int>)
      requires Valid()
      ensures r.Ok? && 0 < Size() ==> r.value == Paid(log, Slot(BucketStart(clock, Size()), count, 0, Size()), clock + 1)
      ensures r.Ok? && Size() == 0 ==> r.value == 0
      ensures r.Err? ==> exists k :: 0 <= k <= |buckets| && !(-I128_MAX - 1 <= SumSpends(buckets[..k]) <= I128_MAX)
    {
      var total := 0;
      for i := 0 to |buckets|
        invariant total == SumSpends(buckets[..i])
        invariant Size() == 0 ==> total == 0
      {
        assert buckets[..i + 1][..i] == buckets[..i];
        total := total + buckets[i].spend;
        if total < -I128_MAX - 1 || total > I128_MAX {
          assert total == SumSpends(buckets[..i + 1]);
          return Err(Overflow);
        }
      }
      TotalsMatch();
      return Ok(total);
    }

    method SumTxCount() returns (r: Result<int>)
      requires Valid()
      ensures r.Ok? && 0 < Size() ==> r.value == PaidCount(log, Slot(BucketStart(clock, Size()), count, 0, Size()), clock + 1)
      ensures r.Ok? && Size() == 0 ==> r.value == 0
      ensures r.Err? ==> exists k :: 0 <= k <= |buckets| && SumTxs(buckets[..k]) > U32_MAX
    {
      var total := 0;
      for i := 0 to |buckets|
        invariant total == SumTxs(buckets[..i])
        invariant Size() == 0 ==> total == 0
      {
        assert buckets[..i + 1][..i] == buckets[..i];
        total := total + buckets[i].txs;
        if total > U32_MAX {
          assert total == SumTxs(buckets[..i + 1]);
          return Err(Overflow);
        }
      }
      TotalsMatch();
      return Ok(total);
    }

    lemma TotalsMatch()
      requires Valid()
      ensures 0 < Size() ==>
                var from := Slot(BucketStart(clock, Size()), count, 0, Size());
                SumSpends(buckets[..count]) == Paid(log, from, clock + 1)
                && SumTxs(buckets[..count]) == PaidCount(log, from, clock + 1)
    {
      if 0 < Size() {
        var last, size := buckets[count - 1].start, Size();
        PrefixTotals(buckets, log, size, count);
        assert Slot(last, count, count, size) == last + size;
        WindowReach(clock, count, size);
        if log != [] {
          PaidBeyond(log, Slot(last, count, 0, size), clock + 1, last + size);
        } else {
          NothingPaid(log, Slot(last, count, 0, size), last + size);
          NothingPaid(log, Slot(BucketStart(clock, size), count, 0, size), clock + 1);
        }
      }
    }
  }

  /** One rotation: the oldest bucket drops out, the next one opens. */
  method Rotate(ring: seq<Bucket>, size: int) returns (rotated: seq<Bucket>)
    requires ring != []
    ensures rotated == ring[1..] + [Bucket(ring[|ring| - 1].start + size, 0, 0)]
  {
    rotated := [];
    for i := 1 to |ring|
      invariant rotated == ring[1..i]
    {
      rotated := rotated + [ring[i]];
    }
    rotated := rotated + [Bucket(ring[|ring| - 1].start + size, 0, 0)];
  }

  lemma StartsAreOrdered(clock: int, now: int, size: int)
    requires 0 < size && clock <= now
    ensures BucketStart(clock, size) <= BucketStart(now, size) <= now
    ensures BucketStart(clock, size) % size == 0 && BucketStart(now, size) % size == 0
  {
    DivLe(clock, now, size);
    MulLe(clock / size, now / size, size);
    DivUnique(clock / size * size, size, clock / size);
    DivUnique(now / size * size, size, now / size);
  }

  lemma MultiplesStep(last: int, start: int, size: int)
    requires 0 < size && last % size == 0 && start % size == 0 && last < start
    ensures last + size <= start && (last + size) % size == 0
  {
    var p, q := last / size, start / size;
    assert last == p * size && start == q * size;
    if q <= p {
      MulLe(q, p, size);
    }
    MulLe(p + 1, q, size);
    DivUnique(last + size, size, p + 1);
    assert (p + 1) * size == last + size;
  }
}
