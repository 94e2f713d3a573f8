/** The schedule every subscription keeps, and what collecting late comes to. */
module SubscriptionProofs {
  import opened Base
  import opened Arithmetic
  import opened Tokens
  import opened SubscriptionModel

  /** Whole periods elapsed by `now`, up to the authorised number. */
  function Target(sub: Record, now: int): int {
    Min(sub.maxPeriods, (now - sub.start) / sub.interval)
  }

  /** The record of one subscription at ledger `now`. */
  ghost predicate OnSchedule(sub: Record, now: int) {
    && 0 < sub.maxPeriods && sub.payer != sub.payee
    && sub.start <= now
    && sub.next == sub.start + (sub.current + 1) * sub.interval
    && sub.current <= Target(sub, now)
    && (sub.status == Exhausted <==> sub.current == sub.maxPeriods)
    && (sub.status == Cancelled <==> sub.cancelledAt.Some?)
  }

  function ChargedFor(j: seq<Charge>, id: int): int {
    if j == [] then 0
    else ChargedFor(j[..|j| - 1], id) + if j[|j| - 1].id == id then j[|j| - 1].total else 0
  }

  ghost predicate Inv(s: State) {
    && Solvent(s.balances)
    && s.nextId == |s.subs|
    && (forall i | 0 <= i < |s.subs| :: s.subs[i].id == i && OnSchedule(s.subs[i], s.now))
    && (forall i | 0 <= i < |s.subs| :: ChargedFor(s.journal, i) == s.subs[i].amount * s.subs[i].current)
    && (forall k | 0 <= k < |s.journal| :: s.journal[k].id < |s.subs|)
    && (forall p :: ActiveCount(s.subs, p) <= MAX_SUBSCRIPTIONS_PER_PAYER)
  }

  lemma GapArithmetic(start: int, now: int, interval: int, current: int, next: int)
    requires 0 < interval && next == start + (current + 1) * interval
    ensures now < next <==> (now - start) / interval <= current
    ensures (now - next) / interval + 1 == (now - start) / interval - current
  {
    DivAdd(now - start, interval, -(current + 1));
    assert now - next == now - start + -(current + 1) * interval;
    if now >= next {
      DivLe(0, now - next, interval);
    } else {
      DivLe(now - next, -1, interval);
      DivUnique(-1, interval, -1);
    }
  }

  /** The capped count never runs past the target, and stops short of it only
      at 32 periods. */
  lemma DueIsTheGap(sub: Record, now: u32)
    requires OnSchedule(sub, now)
    ensures DuePeriodsCapped(sub, now) == Min(Target(sub, now) - sub.current, MAX_CATCHUP_PERIODS)
  {
    GapArithmetic(sub.start, now, sub.interval, sub.current, sub.next);
  }

  // ---- Charging ----

  /** Exactly when `count` periods can be charged at once. */
  lemma AdvanceSucceedsIff(s: State, i: nat, count: int)
    requires Inv(s) && i < |s.subs| && 0 < count <= s.subs[i].maxPeriods - s.subs[i].current
    ensures var sub := s.subs[i];
            Advance(s, i, count).Ok? <==>
              && sub.amount * count <= BalanceOf(s.balances, sub.token, sub.payer)
              && BalanceOf(s.balances, sub.token, sub.payee) + sub.amount * count <= I128_MAX
              && sub.next + count * sub.interval <= U32_MAX
  {
    hide ActiveCount, ChargedFor, Target;
    MulLe(0, count, s.subs[i].amount);
    assert OnSchedule(s.subs[i], s.now);
  }

  lemma AdvanceDoes(s: State, i: nat, count: int)
    requires i < |s.subs| && 0 < count <= s.subs[i].maxPeriods - s.subs[i].current && Advance(s, i, count).Ok?
    ensures var sub, s' := s.subs[i], Advance(s, i, count).value;
            && s' == s.(balances := s'.balances, subs := s'.subs, journal := s'.journal)
            && |s'.subs| == |s.subs| && (forall k | 0 <= k < |s.subs| && k != i :: s'.subs[k] == s.subs[k])
            && s'.subs[i] == sub.(current := sub.current + count, next := sub.next + count * sub.interval,
                                  status := if sub.current + count == sub.maxPeriods then Exhausted else sub.status)
            && s'.journal == s.journal + [Charge(sub.id, s.now, sub.amount * count)]
            && Transfer(s.balances, sub.token, sub.payer, sub.payee, sub.amount * count) == Ok(s'.balances)
  {
    MulLe(0, count, s.subs[i].interval);
  }

  lemma {:induction false} ActiveCountUpdate(subs: seq<Record>, i: nat, r: Record, p: Address)
    requires i < |subs|
    ensures ActiveCount(subs[i := r], p)
         == ActiveCount(subs, p)
            - (if subs[i].payer == p && subs[i].status == Active then 1 else 0)
            + (if r.payer == p && r.status == Active then 1 else 0)
  {
    if i < |subs| - 1 {
      assert subs[i := r][..|subs| - 1] == subs[..|subs| - 1][i := r];
      ActiveCountUpdate(subs[..|subs| - 1], i, r, p);
    } else {
      assert subs[i := r][..|subs| - 1] == subs[..|subs| - 1];
    }
  }

  lemma ChargedAppend(j: seq<Charge>, c: Charge)
    ensures forall id {:trigger ChargedFor(j + [c], id)} ::
              ChargedFor(j + [c], id) == ChargedFor(j, id) + if c.id == id then c.total else 0
  {
    assert (j + [c])[..|j|] == j;
  }

  lemma {:induction false} NothingCharged(j: seq<Charge>, id: int)
    requires forall k | 0 <= k < |j| :: j[k].id != id
    ensures ChargedFor(j, id) == 0
  {
    if j != [] {
      NothingCharged(j[..|j| - 1], id);
    }
  }

  /** Rewriting one record with the same parties, never back to active. */
  lemma ActiveCountsStay(subs: seq<Record>, i: nat, r: Record)
    requires i < |subs| && r.payer == subs[i].payer && (r.status == Active ==> subs[i].status == Active)
    requires forall p :: ActiveCount(subs, p) <= MAX_SUBSCRIPTIONS_PER_PAYER
    ensures var subs' := subs[i := r];
            forall p :: ActiveCount(subs', p) <= MAX_SUBSCRIPTIONS_PER_PAYER
  {
    hide ActiveCount;
    var subs' := subs[i := r];
    forall p
      ensures ActiveCount(subs', p) <= MAX_SUBSCRIPTIONS_PER_PAYER
    {
      ActiveCountUpdate(subs, i, r, p);
    }
  }

  /** Charging up to the target keeps the schedule. */
  lemma AdvanceKeeps(s: State, i: nat, count: int)
    requires Inv(s) && i < |s.subs| && 0 < count <= Target(s.subs[i], s.now) - s.subs[i].current
    requires count <= s.subs[i].maxPeriods - s.subs[i].current
    requires s.subs[i].status == Active && Advance(s, i, count).Ok?
    ensures Inv(Advance(s, i, count).value)
  {
    hide Advance, Transfer, ActiveCount, ChargedFor, Target;
    var sub := s.subs[i];
    TargetFits(sub, s.now);
    var s' := Advance(s, i, count).value;
    AdvanceDoes(s, i, count);
    ActiveCountsStay(s.subs, i, s'.subs[i]);
    assert s'.subs == s.subs[i := s'.subs[i]];
    ChargedAppend(s.journal, Charge(sub.id, s.now, sub.amount * count));
    assert sub.amount * (sub.current + count) == sub.amount * sub.current + sub.amount * count;
    assert OnSchedule(s'.subs[i], s.now) by {
      assert (sub.current + 1) * sub.interval + count * sub.interval == (sub.current + count + 1) * sub.interval;
      TargetIgnores(sub, s'.subs[i], s.now);
    }
    assert ChargedFor(s'.journal, i) == s'.subs[i].amount * s'.subs[i].current;
  }

  lemma TargetFits(sub: Record, now: int)
    ensures Target(sub, now) <= sub.maxPeriods
  {}

  /** The target is a matter of the terms alone. */
  lemma TargetIgnores(sub: Record, sub': Record, now: int)
    requires sub'.maxPeriods == sub.maxPeriods && sub'.start == sub.start && sub'.interval == sub.interval
    ensures Target(sub', now) == Target(sub, now)
  {}

  lemma TargetGrows(sub: Record, now: int, later: int)
    requires now <= later
    ensures Target(sub, now) <= Target(sub, later)
  {
    DivLe(now - sub.start, later - sub.start, sub.interval);
  }

  // ---- Every transaction keeps the schedule ----

  lemma FindsById(s: State, id: u32)
    requires Inv(s)
    ensures Find(s, id) == if id < |s.subs| then Ok(id) else Err(NotFound)
  {
    hide ActiveCount, ChargedFor, OnSchedule;
    var i := FindIndex(s.subs, id);
    if i < |s.subs| {
      assert s.subs[i].id == i;
    }
    assert id < |s.subs| ==> s.subs[id].id == id;
  }

  lemma SubscribeKeeps(s: State, payer: Address, payee: Address, token: Address, amount: i128, interval: u32, maxPeriods: u32)
    requires Inv(s) && Subscribe(s, payer, payee, token, amount, interval, maxPeriods).Ok?
    ensures Inv(Subscribe(s, payer, payee, token, amount, interval, maxPeriods).value.0)
  {
    hide ChargedFor, ActiveCount, OnSchedule;
    var s' := Subscribe(s, payer, payee, token, amount, interval, maxPeriods).value.0;
    var added := s'.subs[|s.subs|];
    NothingCharged(s.journal, s.nextId);
    ActiveCountAppend(s.subs, added);
    StartsOnSchedule(added, s.now);
  }

  lemma ActiveCountAppend(subs: seq<Record>, added: Record)
    ensures forall p :: ActiveCount(subs + [added], p)
                        == ActiveCount(subs, p) + if added.payer == p && added.status == Active then 1 else 0
  {
    assert (subs + [added])[..|subs|] == subs;
  }

  /** A new subscription is due one interval from now. */
  lemma StartsOnSchedule(sub: Record, now: int)
    requires 0 < sub.maxPeriods && sub.payer != sub.payee && sub.status == Active && sub.cancelledAt.None?
    requires sub.start == now && sub.current == 0 && sub.next == now + sub.interval
    ensures OnSchedule(sub, now)
  {}

  lemma CollectDoes(s: State, id: u32, caller: Address)
    requires Inv(s) && Collect(s, id, caller).Ok?
    ensures id < |s.subs| && s.subs[id].status == Active && caller == s.subs[id].payee
    ensures var due := DuePeriodsCapped(s.subs[id], s.now);
            && 0 < due == Min(Target(s.subs[id], s.now) - s.subs[id].current, MAX_CATCHUP_PERIODS)
            && Advance(s, id, due) == Ok(Collect(s, id, caller).value.0)
            && Collect(s, id, caller).value.1 == due
  {
    hide Advance, ActiveCount, ChargedFor, Target, DuePeriodsCapped;
    FindsById(s, id);
    DueIsTheGap(s.subs[id], s.now);
  }

  lemma CollectKeeps(s: State, id: u32, caller: Address)
    requires Inv(s) && Collect(s, id, caller).Ok?
    ensures Inv(Collect(s, id, caller).value.0)
  {
    hide Inv, Collect, Target, DuePeriodsCapped, Advance;
    CollectDoes(s, id, caller);
    AdvanceKeeps(s, id, DuePeriodsCapped(s.subs[id], s.now));
  }

  lemma CancelDoes(s: State, id: u32, caller: Address)
    requires Inv(s) && Cancel(s, id, caller).Ok?
    ensures id < |s.subs| && s.subs[id].status == Active
    ensures var due := DuePeriodsCapped(s.subs[id], s.now);
            && due == Min(Target(s.subs[id], s.now) - s.subs[id].current, MAX_CATCHUP_PERIODS)
            && Advance(s, id, due).Ok?
            && var mid := Advance(s, id, due).value;
               && |mid.subs| == |s.subs|
               && Cancel(s, id, caller).value ==
                  (if mid.subs[id].status == Active
                   then mid.(subs := mid.subs[id := mid.subs[id].(status := Cancelled, cancelledAt := Some(s.now))])
                   else mid, due)
  {
    hide ActiveCount, ChargedFor, Target, DuePeriodsCapped, Transfer;
    FindsById(s, id);
    DueIsTheGap(s.subs[id], s.now);
  }

  lemma ClosingKeeps(s: State, i: nat)
    requires Inv(s) && i < |s.subs| && s.subs[i].status == Active
    ensures Inv(s.(subs := s.subs[i := s.subs[i].(status := Cancelled, cancelledAt := Some(s.now))]))
  {
    hide ActiveCount, ChargedFor, Target;
    var sub := s.subs[i];
    var closed := sub.(status := Cancelled, cancelledAt := Some(s.now));
    ActiveCountsStay(s.subs, i, closed);
    TargetIgnores(sub, closed, s.now);
    assert OnSchedule(closed, s.now);
  }

  lemma CancelKeeps(s: State, id: u32, caller: Address)
    requires Inv(s) && Cancel(s, id, caller).Ok?
    ensures Inv(Cancel(s, id, caller).value.0)
  {
    hide Inv, Cancel, Target, DuePeriodsCapped;
    CancelDoes(s, id, caller);
    var due := DuePeriodsCapped(s.subs[id], s.now);
    if due > 0 {
      AdvanceKeeps(s, id, due);
    }
    hide Advance;
    var mid := Advance(s, id, due).value;
    if mid.subs[id].status == Active {
      ClosingKeeps(mid, id);
    }
  }

  lemma OutsideKeeps(s: State, now: u32, balances: Balances)
    requires Inv(s) && s.now <= now && Solvent(balances)
    ensures Inv(s.(now := now, balances := balances))
  {
    hide ActiveCount, ChargedFor, Target;
    forall i | 0 <= i < |s.subs|
      ensures OnSchedule(s.subs[i], now)
    {
      TargetGrows(s.subs[i], s.now, now);
    }
  }

  lemma StepKeeps(s: State, op: Op)
    requires Inv(s)
    ensures Inv(Apply(s, op))
  {
    hide Inv, Subscribe, Collect, Cancel;
    if Step(s, op).Ok? {
      match op
      case OpSubscribe(p, q, t, a, n, m) => SubscribeKeeps(s, p, q, t, a, n, m);
      case OpCollect(id, c) => CollectKeeps(s, id, c);
      case OpCancel(id, c) => CancelKeeps(s, id, c);
      case OpOutside(now, b) => OutsideKeeps(s, now, b);
    }
  }

  lemma {:induction false} RunKeeps(s: State, ops: seq<Op>)
    requires Inv(s)
    ensures Inv(Run(s, ops))
    decreases |ops|
  {
    if ops != [] {
      StepKeeps(s, ops[0]);
      RunKeeps(Apply(s, ops[0]), ops[1..]);
    }
  }

  /** From deployment on, every subscription keeps to its schedule: the next due
      ledger follows from the number collected, nobody is charged early or past
      the cap, and what was charged is the amount times the periods collected. */
  lemma ReachableIsOnSchedule(now: u32, balances: Balances, ops: seq<Op>)
    requires Solvent(balances)
    ensures var s := Run(Fresh(now, balances), ops);
            forall i | 0 <= i < |s.subs| ::
              var sub := s.subs[i];
              && sub.next == sub.start + (sub.current + 1) * sub.interval
              && sub.current <= sub.maxPeriods && sub.current <= (s.now - sub.start) / sub.interval
              && ChargedFor(s.journal, i) == sub.amount * sub.current
  {
    hide Run, ChargedFor;
    var s := Run(Fresh(now, balances), ops);
    assert Inv(Fresh(now, balances));
    RunKeeps(Fresh(now, balances), ops);
    forall i | 0 <= i < |s.subs|
      ensures OnSchedule(s.subs[i], s.now)
    {}
  }
}
