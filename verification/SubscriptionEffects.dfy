/** What each subscription transaction does, in the caller's terms, and what the
    payer's authorisation bounds on every run after it. */
module SubscriptionEffects {
  import opened Base
  import opened Arithmetic
  import opened Tokens
  import opened SubscriptionModel
  import opened SubscriptionProofs
  import opened SubscriptionTheorems

  /** A subscription stores the terms the payer agreed to, due one interval from now. */
  lemma SubscribeDoes(s: State, payer: Address, payee: Address, token: Address, amount: i128, interval: u32, maxPeriods: u32)
    requires Inv(s)
    ensures var r := Subscribe(s, payer, payee, token, amount, interval, maxPeriods);
            && (r.Ok? <==> 0 < amount && 0 < interval && 0 < maxPeriods && payer != payee
                           && ActiveCount(s.subs, payer) < 128
                           && s.nextId < 0xFFFF_FFFF && s.now + interval <= 0xFFFF_FFFF)
            && (r.Ok? ==>
                  var (s', id) := r.value;
                  && id == |s.subs| && |s'.subs| == |s.subs| + 1 && s'.subs[..|s.subs|] == s.subs
                  && s' == s.(subs := s'.subs, nextId := id + 1)
                  && var x := s'.subs[id];
                     && x.payer == payer && x.payee == payee && x.token == token && x.amount == amount
                     && x.interval == interval && x.maxPeriods == maxPeriods && x.current == 0
                     && x.start == s.now && x.next == s.now + interval && x.status == Active && x.cancelledAt.None?)
  {
    hide ActiveCount, ChargedFor;
  }

  /** What one charge moves: `count` amounts from payer to payee, and the schedule on
      by as many intervals; nothing else. */
  ghost predicate Charged(s: State, s': State, id: u32, count: int)
    requires id < |s.subs|
  {
    var x := s.subs[id];
    && s' == s.(balances := s'.balances, subs := s'.subs, journal := s'.journal) && |s'.subs| == |s.subs|
    && (forall i | 0 <= i < |s.subs| && i != id :: s'.subs[i] == s.subs[i])
    && s'.subs[id].current == x.current + count && s'.subs[id].next == x.next + count * x.interval
    && Transferred(s.balances, s'.balances, x.token, x.payer, x.payee, x.amount * count)
  }

  lemma AdvanceCharges(s: State, id: u32, count: int)
    requires id < |s.subs| && 0 <= count <= s.subs[id].maxPeriods - s.subs[id].current && Advance(s, id, count).Ok?
    ensures Charged(s, Advance(s, id, count).value, id, count)
  {
    hide BalanceOf;
    if count > 0 {
      AdvanceDoes(s, id, count);
    }
  }

  /** The periods due now: whole intervals since the last one charged, within the cap
      and at most 32. */
  function Due(x: Record, now: int): int {
    Min(Min(x.maxPeriods, (now - x.start) / x.interval) - x.current, 32)
  }

  /** A collection reports and charges exactly the periods due, and ends the
      subscription exactly with its last period. */
  lemma CollectCharges(s: State, id: u32, caller: Address)
    requires Inv(s) && Collect(s, id, caller).Ok?
    ensures id < |s.subs|
    ensures var (s', n) := Collect(s, id, caller).value;
            && caller == s.subs[id].payee && s.subs[id].status == Active
            && n == Due(s.subs[id], s.now) && Charged(s, s', id, n)
            && s'.subs[id].status == (if s'.subs[id].current == s.subs[id].maxPeriods then Exhausted else Active)
  {
    hide Inv, Collect, Advance, DuePeriodsCapped, Charged;
    CollectDoes(s, id, caller);
    var n := DuePeriodsCapped(s.subs[id], s.now);
    AdvanceCharges(s, id, n);
    AdvanceDoes(s, id, n);
  }

  /** A cancellation charges the periods due and ends the subscription. */
  lemma CancelCharges(s: State, id: u32, caller: Address)
    requires Inv(s) && Cancel(s, id, caller).Ok?
    ensures id < |s.subs|
    ensures var (s', n) := Cancel(s, id, caller).value;
            && (caller == s.subs[id].payer || caller == s.subs[id].payee) && s.subs[id].status == Active
            && n == Due(s.subs[id], s.now) && Charged(s, s', id, n)
            && s'.subs[id].status == (if s'.subs[id].current == s.subs[id].maxPeriods then Exhausted else Cancelled)
            && (s'.subs[id].status == Cancelled ==> s'.subs[id].cancelledAt == Some(s.now))
  {
    hide Inv, Cancel, Advance, DuePeriodsCapped, Target;
    CancelSucceedsIff(s, id, caller);
    CancelDoes(s, id, caller);
    CancelEnds(s, id, caller);
    var n := DuePeriodsCapped(s.subs[id], s.now);
    TargetIs(s.subs[id], s.now);
    AdvanceCharges(s, id, n);
    if n > 0 {
      AdvanceDoes(s, id, n);
    } else {
      NoAdvance(s, id);
    }
    RecordFacts(s, id);
    hide Affordable;
  }

  lemma TargetIs(x: Record, now: int)
    ensures Target(x, now) == Min(x.maxPeriods, (now - x.start) / x.interval)
  {}

  lemma NoAdvance(s: State, id: u32)
    requires id < |s.subs|
    ensures Advance(s, id, 0) == Ok(s)
  {}

  /** On every run after a subscription is made: all charges for it together are at
      most the agreed amount for each whole agreed interval since, up to the agreed
      number of periods. */
  lemma ChargesStayAuthorised(s: State, payer: Address, payee: Address, token: Address, amount: i128, interval: u32,
                              maxPeriods: u32, ops: seq<Op>)
    requires Inv(s) && Subscribe(s, payer, payee, token, amount, interval, maxPeriods).Ok?
    ensures 0 < interval
    ensures var (s', id) := Subscribe(s, payer, payee, token, amount, interval, maxPeriods).value;
            var end := Run(s', ops);
            && id < |end.subs|
            && end.subs[id].payer == payer && end.subs[id].payee == payee && end.subs[id].token == token
            && ChargedFor(end.journal, id) == amount * end.subs[id].current
            && ChargedFor(end.journal, id) <= amount * Min(maxPeriods, (end.now - s.now) / interval)
  {
    hide Inv, Subscribe, Run, ChargedFor, Continues;
    SubscribeDoes(s, payer, payee, token, amount, interval, maxPeriods);
    SubscribeKeeps(s, payer, payee, token, amount, interval, maxPeriods);
    var (s', id) := Subscribe(s, payer, payee, token, amount, interval, maxPeriods).value;
    RunKeeps(s', ops);
    RunContinues(s', ops);
    var end := Run(s', ops);
    SameTerms(s'.subs[id], end.subs[id]);
    BooksOf(end, id);
    ChargedWithinTarget(end, id);
  }

  lemma SameTerms(x: Record, x': Record)
    requires Continues(x, x')
    ensures x'.payer == x.payer && x'.payee == x.payee && x'.token == x.token && x'.amount == x.amount
    ensures x'.interval == x.interval && x'.maxPeriods == x.maxPeriods && x'.start == x.start
  {}

  lemma ChargedWithinTarget(s: State, id: u32)
    requires Inv(s) && id < |s.subs|
    ensures var x := s.subs[id];
            x.amount * x.current <= x.amount * Min(x.maxPeriods, (s.now - x.start) / x.interval)
  {
    hide Inv, Target;
    var x := s.subs[id];
    RecordFacts(s, id);
    TargetIs(x, s.now);
    MulLe(x.current, Target(x, s.now), x.amount);
  }

  lemma BooksOf(s: State, id: u32)
    requires Inv(s) && id < |s.subs|
    ensures ChargedFor(s.journal, id) == s.subs[id].amount * s.subs[id].current
  {}
}
