/** What collecting late, in pieces or not at all comes to. */
module SubscriptionTheorems {
  import opened Base
  import opened Arithmetic
  import opened Tokens
  import opened SubscriptionModel
  import opened SubscriptionProofs

  /** What charging `count` more periods asks of the accounts and the ledger. */
  predicate Affordable(s: State, sub: Record, count: int) {
    && sub.amount * count <= BalanceOf(s.balances, sub.token, sub.payer)
    && BalanceOf(s.balances, sub.token, sub.payee) + sub.amount * count <= I128_MAX
    && sub.next + count * sub.interval <= U32_MAX
  }

  /** A collection is all or nothing: it needs the payer to cover every period
      due, up to 32, at once. */
  lemma CollectSucceedsIff(s: State, id: u32, caller: Address)
    requires Inv(s)
    ensures Collect(s, id, caller).Ok? <==>
              && id < |s.subs|
              && var sub := s.subs[id];
                 var due := Min(Target(sub, s.now) - sub.current, MAX_CATCHUP_PERIODS);
                 caller == sub.payee && sub.status == Active && 0 < due && Affordable(s, sub, due)
  {
    hide ActiveCount, ChargedFor, Target, Advance, DuePeriodsCapped;
    FindsById(s, id);
    if id < |s.subs| {
      var sub := s.subs[id];
      DueIsTheGap(sub, s.now);
      TargetFits(sub, s.now);
      var due := DuePeriodsCapped(sub, s.now);
      if due > 0 {
        AdvanceSucceedsIff(s, id, due);
      }
    }
  }

  /** A cancel charges what is due first: a payer who cannot cover it, up to 32
      periods at once, cannot cancel. */
  lemma CancelSucceedsIff(s: State, id: u32, caller: Address)
    requires Inv(s)
    ensures Cancel(s, id, caller).Ok? <==>
              && id < |s.subs|
              && var sub := s.subs[id];
                 var due := Min(Target(sub, s.now) - sub.current, MAX_CATCHUP_PERIODS);
                 (caller == sub.payer || caller == sub.payee) && sub.status == Active
                 && (due == 0 || Affordable(s, sub, due))
  {
    hide ActiveCount, ChargedFor, Target, DuePeriodsCapped, Transfer;
    FindsById(s, id);
    if id < |s.subs| {
      var sub := s.subs[id];
      DueIsTheGap(sub, s.now);
      TargetFits(sub, s.now);
      var due := DuePeriodsCapped(sub, s.now);
      if due > 0 {
        AdvanceSucceedsIff(s, id, due);
      }
    }
  }

  // ---- Draining ----

  /** What is left to collect, at most; zero once there is no such record. */
  function Remaining(s: State, id: u32): nat {
    if id < |s.subs| then s.subs[id].maxPeriods - s.subs[id].current else 0
  }

  lemma CollectShrinks(s: State, id: u32, caller: Address)
    requires Inv(s) && Collect(s, id, caller).Ok?
    ensures Remaining(Collect(s, id, caller).value.0, id) < Remaining(s, id)
    ensures Inv(Collect(s, id, caller).value.0)
  {
    hide Inv, Collect, Target, DuePeriodsCapped, Advance;
    CollectDoes(s, id, caller);
    AdvanceDoes(s, id, DuePeriodsCapped(s.subs[id], s.now));
    CollectKeeps(s, id, caller);
  }

  /** Collecting over and over at one ledger until it is refused. */
  ghost function Drain(s: State, id: u32): State
    requires Inv(s) && id < |s.subs|
    decreases Remaining(s, id)
  {
    var r := Collect(s, id, s.subs[id].payee);
    if r.Err? then s
    else
      CollectShrinks(s, id, s.subs[id].payee);
      if id < |r.value.0.subs| then Drain(r.value.0, id) else r.value.0
  }

  /** One chunk of a drain leaves exactly the rest of the bill. */
  lemma ChunkLeavesTheRest(s: State, id: u32, chunk: int, whole: int)
    requires Inv(s) && id < |s.subs| && 0 < chunk <= whole <= s.subs[id].maxPeriods - s.subs[id].current
    requires Advance(s, id, chunk).Ok?
    ensures var sub, s' := s.subs[id], Advance(s, id, chunk).value;
            |s'.subs| == |s.subs| && (Affordable(s, sub, whole) <==> Affordable(s', s'.subs[id], whole - chunk))
  {
    hide ActiveCount, ChargedFor, Target, Advance;
    var sub, s' := s.subs[id], Advance(s, id, chunk).value;
    AdvanceDoes(s, id, chunk);
    assert OnSchedule(sub, s.now);
    assert sub.amount * chunk + sub.amount * (whole - chunk) == sub.amount * whole;
    assert chunk * sub.interval + (whole - chunk) * sub.interval == whole * sub.interval;
  }

  lemma SmallerIsAffordable(s: State, sub: Record, part: int, whole: int)
    requires 0 <= part <= whole && Affordable(s, sub, whole)
    ensures Affordable(s, sub, part)
  {
    MulLe(part, whole, sub.amount);
    MulLe(part, whole, sub.interval);
  }

  /** Draining reaches every elapsed, authorised period exactly when the payer
      can pay for them all, the payee can hold it and the next due ledger still
      exists; how they were chunked does not matter. */
  lemma {:induction false} DrainReaches(s: State, id: u32)
    requires Inv(s) && id < |s.subs| && s.subs[id].status == Active
    ensures var s', sub := Drain(s, id), s.subs[id];
            && Inv(s') && id < |s'.subs| && s'.now == s.now
            && s'.subs[id] == sub.(current := s'.subs[id].current, next := s'.subs[id].next, status := s'.subs[id].status)
            && s'.subs[id].status != Cancelled
            && (s'.subs[id].current == Target(sub, s.now) <==>
                  Target(sub, s.now) == sub.current || Affordable(s, sub, Target(sub, s.now) - sub.current))
    decreases Remaining(s, id)
  {
    hide Inv, Collect, Target, Advance, Affordable, DuePeriodsCapped;
    var sub := s.subs[id];
    RecordFacts(s, id);
    var gap := Target(sub, s.now) - sub.current;
    CollectSucceedsIff(s, id, sub.payee);
    var r := Collect(s, id, sub.payee);
    if r.Ok? {
      CollectShrinks(s, id, sub.payee);
      CollectDoes(s, id, sub.payee);
      var due := Min(gap, MAX_CATCHUP_PERIODS);
      AdvanceDoes(s, id, due);
      ChunkLeavesTheRest(s, id, due, gap);
      var s1 := r.value.0;
      TargetIgnores(sub, s1.subs[id], s.now);
      if s1.subs[id].status == Active {
        DrainReaches(s1, id);
        if due == gap {
          NothingIsAffordable(s1, id);
        }
      } else {
        ExhaustedDrains(s1, id);
        NothingIsAffordable(s1, id);
      }
    } else if 0 < gap && Affordable(s, sub, gap) {
      SmallerIsAffordable(s, sub, Min(gap, MAX_CATCHUP_PERIODS), gap);
    }
  }

  lemma RecordFacts(s: State, id: u32)
    requires Inv(s) && id < |s.subs|
    ensures s.subs[id].current <= Target(s.subs[id], s.now) <= s.subs[id].maxPeriods
    ensures s.subs[id].status == Exhausted <==> s.subs[id].current == s.subs[id].maxPeriods
    ensures s.subs[id].status == Cancelled <==> s.subs[id].cancelledAt.Some?
    ensures s.subs[id].next == s.subs[id].start + (s.subs[id].current + 1) * s.subs[id].interval
  {
    assert OnSchedule(s.subs[id], s.now);
  }

  lemma NothingIsAffordable(s: State, id: u32)
    requires Inv(s) && id < |s.subs|
    ensures Affordable(s, s.subs[id], 0)
  {}

  lemma ExhaustedDrains(s: State, id: u32)
    requires Inv(s) && id < |s.subs| && s.subs[id].status != Active
    ensures Drain(s, id) == s
  {
    hide Inv, Collect;
    CollectSucceedsIff(s, id, s.subs[id].payee);
  }

  // ---- Terms and endings over runs ----

  /** The terms never change, progress never goes back, and an ended
      subscription stays exactly as it ended. */
  predicate Continues(sub: Record, sub': Record) {
    && sub' == sub.(current := sub'.current, next := sub'.next, status := sub'.status, cancelledAt := sub'.cancelledAt)
    && sub.current <= sub'.current
    && (sub.status != Active ==> sub' == sub)
  }

  lemma StepContinues(s: State, op: Op)
    requires Inv(s)
    ensures |s.subs| <= |Apply(s, op).subs|
    ensures forall i | 0 <= i < |s.subs| :: Continues(s.subs[i], Apply(s, op).subs[i])
  {
    hide Inv, Collect, Cancel, Advance, Target, DuePeriodsCapped;
    if Step(s, op).Ok? {
      match op
      case OpCollect(id, c) =>
        CollectDoes(s, id, c);
        AdvanceDoes(s, id, DuePeriodsCapped(s.subs[id], s.now));
      case OpCancel(id, c) =>
        CancelEnds(s, id, c);
      case _ =>
    }
  }

  lemma {:induction false} RunContinues(s: State, ops: seq<Op>)
    requires Inv(s)
    ensures |s.subs| <= |Run(s, ops).subs|
    ensures forall i | 0 <= i < |s.subs| :: Continues(s.subs[i], Run(s, ops).subs[i])
    decreases |ops|
  {
    hide Inv, Apply;
    if ops != [] {
      StepKeeps(s, ops[0]);
      StepContinues(s, ops[0]);
      RunContinues(Apply(s, ops[0]), ops[1..]);
    }
  }

  /** A cancel settles the elapsed periods, but never more than 32 of them. */
  lemma CancelEnds(s: State, id: u32, caller: Address)
    requires Inv(s) && Cancel(s, id, caller).Ok?
    ensures id < |s.subs|
    ensures var sub, s' := s.subs[id], Cancel(s, id, caller).value.0;
            && |s'.subs| == |s.subs| && (forall i | 0 <= i < |s.subs| && i != id :: s'.subs[i] == s.subs[i])
            && sub.status == Active && s'.subs[id].status != Active
            && Continues(sub, s'.subs[id])
            && s'.subs[id].current == sub.current + Min(Target(sub, s.now) - sub.current, MAX_CATCHUP_PERIODS)
  {
    hide Inv, Cancel, Target, DuePeriodsCapped;
    CancelDoes(s, id, caller);
    var due := DuePeriodsCapped(s.subs[id], s.now);
    if due > 0 {
      AdvanceDoes(s, id, due);
    }
    hide Advance;
  }

  /** On every run after a cancel the elapsed periods are all paid for exactly
      when at most 32 were outstanding; any beyond that are never collected. */
  lemma CancelForgivesBeyondTheCap(s: State, id: u32, caller: Address, ops: seq<Op>)
    requires Inv(s) && Cancel(s, id, caller).Ok?
    ensures id < |s.subs|
    ensures var sub := s.subs[id];
            var end := Run(Cancel(s, id, caller).value.0, ops);
            && id < |end.subs|
            && (end.subs[id].current == Target(sub, s.now) <==> Target(sub, s.now) - sub.current <= MAX_CATCHUP_PERIODS)
  {
    hide Inv, Cancel, Target, Run;
    CancelEnds(s, id, caller);
    CancelKeeps(s, id, caller);
    var mid := Cancel(s, id, caller).value.0;
    RunContinues(mid, ops);
    assert Continues(mid.subs[id], Run(mid, ops).subs[id]);
  }

  // ---- Schedule independence ----

  /** However two histories space their collections, once both are drained at the
      same ledger the subscription is the same, provided each can be paid for. */
  lemma ScheduleIndependence(s: State, ops1: seq<Op>, ops2: seq<Op>, id: u32)
    requires Inv(s) && id < |s.subs|
    requires Chargeable(Run(s, ops1), id) && Chargeable(Run(s, ops2), id)
    requires Run(s, ops1).now == Run(s, ops2).now
    ensures Inv(Run(s, ops1)) && Inv(Run(s, ops2))
    ensures var end1, end2 := Drain(Run(s, ops1), id), Drain(Run(s, ops2), id);
            && id < |end1.subs| && id < |end2.subs| && end1.subs[id] == end2.subs[id]
            && end1.subs[id].current == Target(s.subs[id], Run(s, ops1).now)
  {
    hide Inv, Run, Target, Drain;
    DrainsToTarget(s, ops1, id);
    DrainsToTarget(s, ops2, id);
  }

  /** Not cancelled, and every elapsed period still to collect can be paid for. */
  ghost predicate Chargeable(s: State, id: u32) {
    && id < |s.subs|
    && var sub := s.subs[id];
       && sub.status != Cancelled
       && (sub.status == Active && sub.current < Target(sub, s.now) ==> Affordable(s, sub, Target(sub, s.now) - sub.current))
  }

  /** The record of `sub`, uncancelled, with exactly `count` periods collected. */
  predicate CollectedTo(sub: Record, r: Record, count: int) {
    && r == sub.(current := r.current, next := r.next, status := r.status, cancelledAt := None)
    && r.current == count && r.next == sub.start + (count + 1) * sub.interval
    && r.status == (if count == sub.maxPeriods then Exhausted else Active)
  }

  lemma DrainsToTarget(s: State, ops: seq<Op>, id: u32)
    requires Inv(s) && id < |s.subs| && Chargeable(Run(s, ops), id)
    ensures Inv(Run(s, ops))
    ensures var mid, sub := Run(s, ops), s.subs[id];
            var end := Drain(mid, id);
            id < |end.subs| && CollectedTo(sub, end.subs[id], Target(sub, mid.now))
  {
    hide Inv, Run, Target, Drain, Affordable;
    RunKeeps(s, ops);
    RunContinues(s, ops);
    var mid, sub := Run(s, ops), s.subs[id];
    var now := mid.subs[id];
    TargetIgnores(sub, now, mid.now);
    RecordFacts(mid, id);
    if now.status == Active {
      DrainReaches(mid, id);
    } else {
      ExhaustedDrains(mid, id);
    }
    var end := Drain(mid, id);
    RecordFacts(end, id);
  }
}
