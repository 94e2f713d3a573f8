/** Recurring payments as a state machine: a payee collects whole elapsed
    periods, at most 32 to a call. */
module SubscriptionModel {
  import opened Base
  import opened Arithmetic
  import opened Tokens

  const MAX_CATCHUP_PERIODS: int := 32
  const MAX_SUBSCRIPTIONS_PER_PAYER: int := 128

  datatype Status = Active | Cancelled | Exhausted

  datatype Subscription = Subscription(
    id: u32,
    payer: Address,
    payee: Address,
    token: Address,
    amount: Positive,
    interval: u32,
    maxPeriods: u32,
    current: u32,
    start: u32,
    next: u32,
    status: Status,
    cancelledAt: Option<u32>)

  /** A stored subscription: at least one ledger to a period, never over its cap. */
  type Record = r: Subscription | 0 < r.interval && r.current <= r.maxPeriods
    witness Subscription(0, 0, 1, 0, 1, 1, 1, 0, 0, 1, Active, None)

  /** History kept for the statements only. */
  datatype Charge = Charge(id: u32, ledger: u32, total: int)

  datatype State = State(now: u32, balances: Balances, subs: seq<Record>, nextId: u32, journal: seq<Charge>)

  /** The place of the first record with this id, or the length. */
  function FindIndex(subs: seq<Record>, id: u32): (r: nat)
    ensures r <= |subs|
    ensures r < |subs| ==> subs[r].id == id
    ensures forall i | 0 <= i < r :: subs[i].id != id
  {
    if subs == [] || subs[0].id == id then 0 else 1 + FindIndex(subs[1..], id)
  }

  function ActiveCount(subs: seq<Record>, payer: Address): nat {
    if subs == [] then 0
    else
      var s := subs[|subs| - 1];
      ActiveCount(subs[..|subs| - 1], payer) + if s.payer == payer && s.status == Active then 1 else 0
  }

  function DuePeriodsCapped(sub: Record, now: u32): (due: int)
    ensures 0 <= due <= sub.maxPeriods - sub.current && due <= MAX_CATCHUP_PERIODS
  {
    if now < sub.next then 0
    else
      DivLe(0, now - sub.next, sub.interval);
      var additional := (now - sub.next) / sub.interval + 1;
      var remaining := sub.maxPeriods - sub.current;
      Min(Min(Min(additional, sub.maxPeriods), remaining), MAX_CATCHUP_PERIODS)
  }

  /** Charges `count` periods in one transfer and moves the schedule on. */
  function Advance(s: State, i: nat, count: int): Result<State>
    requires i < |s.subs| && 0 <= count <= s.subs[i].maxPeriods - s.subs[i].current
  {
    var sub := s.subs[i];
    if count == 0 then Ok(s) else
    var total := sub.amount * count;
    var _ :- Need(total <= I128_MAX, Overflow);
    var balances :- Transfer(s.balances, sub.token, sub.payer, sub.payee, total);
    var _ :- Need(sub.next + count * sub.interval <= U32_MAX, Overflow);
    MulLe(0, count, sub.interval);
    var sub' := sub.(current := sub.current + count,
                     next := sub.next + count * sub.interval,
                     status := if sub.current + count >= sub.maxPeriods then Exhausted else sub.status);
    Ok(s.(balances := balances, subs := s.subs[i := sub'], journal := s.journal + [Charge(sub.id, s.now, total)]))
  }

  function Subscribe(s: State, payer: Address, payee: Address, token: Address, amount: i128, interval: u32, maxPeriods: u32)
    : Result<(State, u32)>
  {
    var _ :- Need(amount > 0, AmountNotPositive);
    var _ :- Need(interval != 0, WindowTooShort);
    var _ :- Need(maxPeriods != 0, LimitNotPositive);
    var _ :- Need(payer != payee, NotParty);
    var _ :- Need(ActiveCount(s.subs, payer) < MAX_SUBSCRIPTIONS_PER_PAYER, TooMany);
    var _ :- Need(s.nextId < U32_MAX && s.now + interval <= U32_MAX, Overflow);
    Ok((s.(nextId := s.nextId + 1,
           subs := s.subs + [Subscription(s.nextId, payer, payee, token, amount, interval, maxPeriods, 0,
                                          s.now, s.now + interval, Active, None)]), s.nextId))
  }

  function Find(s: State, id: u32): Result<nat> {
    if FindIndex(s.subs, id) < |s.subs| then Ok(FindIndex(s.subs, id)) else Err(NotFound)
  }

  function Collect(s: State, id: u32, caller: Address): Result<(State, int)>
  {
    var i :- Find(s, id);
    var sub := s.subs[i];
    var _ :- Need(caller == sub.payee, NotAuthorized);
    var _ :- Need(sub.status == Active, WrongStatus);
    var due := DuePeriodsCapped(sub, s.now);
    var _ :- Need(due != 0, NotDue);
    var s' :- Advance(s, i, due);
    Ok((s', due))
  }

  /** Settles what has elapsed, up to the cap, and ends the subscription. */
  function Cancel(s: State, id: u32, caller: Address): Result<(State, int)>
  {
    var i :- Find(s, id);
    var sub := s.subs[i];
    var _ :- Need(caller == sub.payer || caller == sub.payee, NotAuthorized);
    var _ :- Need(sub.status == Active, WrongStatus);
    var due := DuePeriodsCapped(sub, s.now);
    var s' :- Advance(s, i, due);
    var sub' := s'.subs[i];
    Ok((if sub'.status == Active
        then s'.(subs := s'.subs[i := sub'.(status := Cancelled, cancelledAt := Some(s.now))])
        else s', due))
  }

  // ---- Runs ----

  /** `OpOutside` is time passing and anyone moving tokens. */
  datatype Op =
    | OpSubscribe(payer: Address, payee: Address, token: Address, amount: i128, interval: u32, maxPeriods: u32)
    | OpCollect(id: u32, caller: Address)
    | OpCancel(id: u32, caller: Address)
    | OpOutside(now: u32, balances: Balances)

  ghost function Step(s: State, op: Op): Result<State>
  {
    match op
    case OpSubscribe(p, q, t, a, n, m) => Post(Subscribe(s, p, q, t, a, n, m))
    case OpCollect(id, c) => Post(Collect(s, id, c))
    case OpCancel(id, c) => Post(Cancel(s, id, c))
    case OpOutside(now, b) =>
      if s.now <= now && Solvent(b) then Ok(s.(now := now, balances := b)) else Err(NotAuthorized)
  }

  function Post<V>(r: Result<(State, V)>): Result<State> {
    if r.Ok? then Ok(r.value.0) else Err(r.error)
  }

  ghost function Apply(s: State, op: Op): State
  {
    if Step(s, op).Ok? then Step(s, op).value else s
  }

  ghost function Run(s: State, ops: seq<Op>): State
    decreases |ops|
  {
    if ops == [] then s else Run(Apply(s, ops[0]), ops[1..])
  }

  ghost function Fresh(now: u32, balances: Balances): State {
    State(now, balances, [], 0, [])
  }
}
