/** Job escrow as a state machine: the price is locked when a job is created and
    leaves once, to the worker or back to the requester. */
module EscrowModel {
  import opened Base
  import opened Tokens

  const DISPUTE_TIMEOUT_LEDGERS: int := 14400

  datatype Status = Open | InProgress | PendingRelease | Completed | Refunded | Disputed

  datatype Job = Job(
    requester: Address,
    worker: Option<Address>,
    arbiter: Option<Address>,
    token: Address,
    amount: Positive,
    result: Option<seq<bv8>>,
    deadline: u32,
    disputeDeadline: Option<u32>,
    status: Status,
    created: u32)

  /** History kept for the statements only. `ruled` marks an arbiter's ruling. */
  datatype Event =
    | Paid(id: u64, to: Address, amount: int, ledger: u32, ruled: bool)
    | DisputeOpened(id: u64, ledger: u32)

  /** `paused` is what the configured circuit breaker reports, false without one. */
  datatype State = State(
    self: Address,
    now: u32,
    paused: bool,
    balances: Balances,
    jobs: map<u64, Job>,
    count: u64,
    journal: seq<Event>)

  function CreateJob(s: State, requester: Address, token: Address, amount: i128, deadline: u32, arbiter: Option<Address>)
    : Result<(State, u64)>
  {
    var _ :- Need(requester != s.self, NotAuthorized);
    var _ :- Need(amount > 0, AmountNotPositive);
    var _ :- Need(s.now < deadline, BadDeadline);
    var balances :- Transfer(s.balances, token, requester, s.self, amount);
    var _ :- Need(s.count < U64_MAX, Overflow);
    var id := s.count + 1;
    Ok((s.(balances := balances, count := id,
           jobs := s.jobs[id := Job(requester, None, arbiter, token, amount, None, deadline, None, Open, s.now)]), id))
  }

  function LoadJob(s: State, id: u64): Result<Job> {
    if id in s.jobs then Ok(s.jobs[id]) else Err(NotFound)
  }

  function AcceptJob(s: State, worker: Address, id: u64): Result<(State, ())> {
    var _ :- Need(worker != s.self, NotAuthorized);
    var job :- LoadJob(s, id);
    var _ :- Need(job.status == Open, WrongStatus);
    var _ :- Need(s.now < job.deadline, Error.Expired);
    Ok((s.(jobs := s.jobs[id := job.(worker := Some(worker), status := InProgress)]), ()))
  }

  function SubmitResult(s: State, worker: Address, id: u64, result: seq<bv8>): Result<(State, ())> {
    var job :- LoadJob(s, id);
    var _ :- Need(job.status == InProgress, WrongStatus);
    var _ :- Need(job.worker == Some(worker), NotParty);
    Ok((s.(jobs := s.jobs[id := job.(result := Some(result), status := PendingRelease)]), ()))
  }

  /** The price leaves the contract and the job ends. */
  function Settle(s: State, id: u64, to: Address, status: Status, ruled: bool): Result<(State, ())>
    requires id in s.jobs
  {
    var job := s.jobs[id];
    var balances :- Transfer(s.balances, job.token, s.self, to, job.amount);
    Ok((s.(balances := balances, jobs := s.jobs[id := job.(status := status)],
           journal := s.journal + [Paid(id, to, job.amount, s.now, ruled)]), ()))
  }

  function Release(s: State, releaser: Address, id: u64): Result<(State, ())> {
    var _ :- Need(!s.paused, Error.Paused);
    var job :- LoadJob(s, id);
    var _ :- Need(job.status == PendingRelease, WrongStatus);
    var _ :- Need(job.requester == releaser, NotAuthorized);
    var _ :- Need(job.worker.Some?, NotParty);
    Settle(s, id, job.worker.value, Completed, false)
  }

  function Refund(s: State, requester: Address, id: u64): Result<(State, ())> {
    var job :- LoadJob(s, id);
    var _ :- Need(job.requester == requester, NotAuthorized);
    var _ :- Need(!job.status.Completed? && !job.status.Refunded?, WrongStatus);
    var _ :- Need(job.status.Disputed? ==> job.disputeDeadline.Some?, BadDeadline);
    var _ :- Need(if job.status.Disputed? then s.now > job.disputeDeadline.value
                  else job.status.Open? || s.now >= job.deadline, BadDeadline);
    Settle(s, id, requester, Refunded, false)
  }

  function Dispute(s: State, requester: Address, id: u64): Result<(State, ())> {
    var job :- LoadJob(s, id);
    var _ :- Need(job.requester == requester, NotAuthorized);
    var _ :- Need(job.arbiter.Some?, NoArbiter);
    var _ :- Need(job.status == PendingRelease, WrongStatus);
    var _ :- Need(s.now + DISPUTE_TIMEOUT_LEDGERS <= U32_MAX, Overflow);
    Ok((s.(jobs := s.jobs[id := job.(status := Disputed, disputeDeadline := Some(s.now + DISPUTE_TIMEOUT_LEDGERS))],
           journal := s.journal + [DisputeOpened(id, s.now)]), ()))
  }

  function ResolveDispute(s: State, arbiter: Address, id: u64, favorWorker: bool): Result<(State, ())> {
    var _ :- Need(!s.paused, Error.Paused);
    var job :- LoadJob(s, id);
    var _ :- Need(job.status == Disputed, WrongStatus);
    var _ :- Need(job.arbiter == Some(arbiter), NoArbiter);
    if favorWorker then
      var _ :- Need(job.worker.Some?, NotParty);
      Settle(s, id, job.worker.value, Completed, true)
    else
      Settle(s, id, job.requester, Refunded, true)
  }

  // ---- Runs ----

  /** `OpOutside` is time passing, the breaker flipping and anyone else moving
      tokens, though never out of this contract. */
  datatype Op =
    | OpCreate(requester: Address, token: Address, amount: i128, deadline: u32, arbiter: Option<Address>)
    | OpAccept(worker: Address, id: u64)
    | OpSubmit(worker: Address, id: u64, result: seq<bv8>)
    | OpRelease(releaser: Address, id: u64)
    | OpRefund(requester: Address, id: u64)
    | OpDispute(requester: Address, id: u64)
    | OpResolve(ruler: Address, id: u64, favorWorker: bool)
    | OpOutside(now: u32, paused: bool, balances: Balances)

  ghost predicate Permitted(s: State, now: u32, balances: Balances) {
    && s.now <= now && Solvent(balances)
    && forall t :: BalanceOf(s.balances, t, s.self) <= BalanceOf(balances, t, s.self)
  }

  ghost function Step(s: State, op: Op): Result<State> {
    match op
    case OpCreate(r, t, a, d, b) => Post(CreateJob(s, r, t, a, d, b))
    case OpAccept(w, id) => Post(AcceptJob(s, w, id))
    case OpSubmit(w, id, x) => Post(SubmitResult(s, w, id, x))
    case OpRelease(r, id) => Post(Release(s, r, id))
    case OpRefund(r, id) => Post(Refund(s, r, id))
    case OpDispute(r, id) => Post(Dispute(s, r, id))
    case OpResolve(a, id, f) => Post(ResolveDispute(s, a, id, f))
    case OpOutside(now, paused, b) =>
      if Permitted(s, now, b) then Ok(s.(now := now, paused := paused, balances := b)) else Err(NotAuthorized)
  }

  function Post<V>(r: Result<(State, V)>): Result<State> {
    if r.Ok? then Ok(r.value.0) else Err(r.error)
  }

  ghost function Apply(s: State, op: Op): State {
    if Step(s, op).Ok? then Step(s, op).value else s
  }

  ghost function Run(s: State, ops: seq<Op>): State
    decreases |ops|
  {
    if ops == [] then s else Run(Apply(s, ops[0]), ops[1..])
  }

  ghost predicate Fresh(s: State) {
    Solvent(s.balances) && s.jobs == map[] && s.count == 0 && s.journal == []
  }
}
