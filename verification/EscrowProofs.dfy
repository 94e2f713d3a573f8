/** Custody and payouts of the escrow, over every run from deployment. */
module EscrowProofs {
  import opened Base
  import opened MapSum
  import opened Tokens
  import opened EscrowModel

  predicate Ended(job: Job) {
    job.status.Completed? || job.status.Refunded?
  }

  // ---- Custody ----

  function LockedOf(job: Job, token: Address): int {
    if job.token == token && !Ended(job) then job.amount else 0
  }

  function LockedIn(jobs: map<u64, Job>, token: Address): map<u64, int> {
    map id | id in jobs :: LockedOf(jobs[id], token)
  }

  /** What the contract holds of a token beyond the price of its live jobs. */
  ghost function Surplus(s: State, token: Address): int {
    BalanceOf(s.balances, token, s.self) - Sum<u64>(LockedIn(s.jobs, token))
  }

  lemma LockedUpdate(jobs: map<u64, Job>, id: u64, job: Job, token: Address)
    ensures Sum<u64>(LockedIn(jobs[id := job], token))
         == Sum<u64>(LockedIn(jobs, token)) - (if id in jobs then LockedOf(jobs[id], token) else 0) + LockedOf(job, token)
  {
    assert LockedIn(jobs[id := job], token) == LockedIn(jobs, token)[id := LockedOf(job, token)];
    SumUpdate<u64>(LockedIn(jobs, token), id, LockedOf(job, token));
  }

  lemma LockedCovers(jobs: map<u64, Job>, id: u64)
    requires id in jobs
    ensures LockedOf(jobs[id], jobs[id].token) <= Sum<u64>(LockedIn(jobs, jobs[id].token))
  {
    var locked := LockedIn(jobs, jobs[id].token);
    SumBounds<u64>(locked);
    assert locked[id] <= Sum<u64>(locked);
  }

  // ---- History ----

  datatype Payout = Payout(to: Address, amount: int, ledger: u32, ruled: bool)

  function PayoutsFor(j: seq<Event>, id: u64): seq<Payout> {
    if j == [] then []
    else
      var e := j[|j| - 1];
      PayoutsFor(j[..|j| - 1], id) + if e.Paid? && e.id == id then [Payout(e.to, e.amount, e.ledger, e.ruled)] else []
  }

  /** When the job's dispute was begun. */
  function DisputeOpenedAt(j: seq<Event>, id: u64): Option<u32> {
    if j == [] then None
    else
      var e := j[|j| - 1];
      if e.DisputeOpened? && e.id == id then Some(e.ledger) else DisputeOpenedAt(j[..|j| - 1], id)
  }

  lemma Appended(j: seq<Event>, e: Event)
    ensures forall id {:trigger PayoutsFor(j + [e], id)} ::
              PayoutsFor(j + [e], id)
              == if e.Paid? && e.id == id then PayoutsFor(j, id) + [Payout(e.to, e.amount, e.ledger, e.ruled)] else PayoutsFor(j, id)
    ensures forall id {:trigger DisputeOpenedAt(j + [e], id)} ::
              DisputeOpenedAt(j + [e], id) == if e.DisputeOpened? && e.id == id then Some(e.ledger) else DisputeOpenedAt(j, id)
  {
    assert (j + [e])[..|j|] == j;
  }

  lemma {:induction false} Unseen(j: seq<Event>, id: u64)
    requires forall k | 0 <= k < |j| :: j[k].id != id
    ensures PayoutsFor(j, id) == [] && DisputeOpenedAt(j, id).None?
  {
    if j != [] {
      Unseen(j[..|j| - 1], id);
    }
  }

  // ---- The invariant ----

  /** A refund has its reasons: nobody had taken the job, its deadline had come,
      the arbiter ruled so, or the arbiter let the dispute time out. */
  predicate RefundIsJustified(job: Job, p: Payout, begun: Option<u32>) {
    || job.worker.None?
    || job.deadline <= p.ledger
    || (begun.Some? && job.arbiter.Some? && (p.ruled || begun.value + DISPUTE_TIMEOUT_LEDGERS < p.ledger))
  }

  /** The record of one job, given its payouts and the ledger its dispute was begun. */
  ghost predicate JobOk(self: Address, job: Job, payouts: seq<Payout>, begun: Option<u32>) {
    && job.requester != self && job.worker != Some(self)
    && (job.status.Open? ==> job.worker.None?)
    && (job.status.InProgress? || job.status.PendingRelease? || job.status.Disputed? || job.status.Completed? ==> job.worker.Some?)
    && (job.disputeDeadline.Some? <==> begun.Some?)
    && (begun.Some? ==> job.disputeDeadline.value == begun.value + DISPUTE_TIMEOUT_LEDGERS && job.arbiter.Some?)
    && (job.status.Disputed? ==> begun.Some?)
    && (job.status.Open? || job.status.InProgress? || job.status.PendingRelease? ==> begun.None?)
    && (if !Ended(job) then payouts == []
        else |payouts| == 1 && payouts[0].amount == job.amount
             && if job.status.Completed? then job.worker == Some(payouts[0].to)
                else job.requester == payouts[0].to && RefundIsJustified(job, payouts[0], begun))
  }

  ghost predicate JobsOk(self: Address, jobs: map<u64, Job>, j: seq<Event>) {
    && (forall id {:trigger jobs[id]} | id in jobs :: JobOk(self, jobs[id], PayoutsFor(j, id), DisputeOpenedAt(j, id)))
    && (forall k | 0 <= k < |j| :: j[k].id in jobs)
  }

  ghost predicate Inv(s: State) {
    && Solvent(s.balances)
    && (forall t :: 0 <= Surplus(s, t))
    && (forall id | id in s.jobs :: 1 <= id <= s.count)
    && JobsOk(s.self, s.jobs, s.journal)
  }

  /** What every transaction does: keep the invariant, never eat into surplus. */
  ghost predicate Kept(s: State, s': State) {
    Inv(s') && s'.self == s.self && forall t :: Surplus(s, t) <= Surplus(s', t)
  }

  lemma JobsStay(s: State, s': State, id: u64, job: Job)
    requires JobsOk(s.self, s.jobs, s.journal) && s'.jobs == s.jobs[id := job] && s'.self == s.self
    requires s'.journal == s.journal || (|s'.journal| == |s.journal| + 1 && s'.journal[..|s.journal|] == s.journal
                                         && s'.journal[|s.journal|].id == id)
    requires JobOk(s.self, job, PayoutsFor(s'.journal, id), DisputeOpenedAt(s'.journal, id))
    ensures JobsOk(s'.self, s'.jobs, s'.journal)
  {
    hide JobOk, PayoutsFor, DisputeOpenedAt;
    if s'.journal != s.journal {
      var e := s'.journal[|s.journal|];
      assert s'.journal == s.journal + [e];
      Appended(s.journal, e);
    }
  }

  /** One job changes and one transfer pays for it. */
  lemma ChangeKeeps(s: State, s': State, id: u64, job: Job)
    requires Inv(s) && s'.self == s.self && s'.jobs == s.jobs[id := job] && 1 <= id <= s'.count && s.count <= s'.count
    requires Solvent(s'.balances) && JobsOk(s'.self, s'.jobs, s'.journal)
    requires forall t ::
               BalanceOf(s'.balances, t, s.self) - BalanceOf(s.balances, t, s.self)
               == LockedOf(job, t) - (if id in s.jobs then LockedOf(s.jobs[id], t) else 0)
    ensures Kept(s, s')
  {
    hide JobsOk, LockedOf;
    forall t
      ensures Surplus(s', t) == Surplus(s, t)
    {
      LockedUpdate(s.jobs, id, job, t);
    }
  }

  lemma CreateKeeps(s: State, requester: Address, token: Address, amount: i128, deadline: u32, arbiter: Option<Address>)
    requires Inv(s) && CreateJob(s, requester, token, amount, deadline, arbiter).Ok?
    ensures Kept(s, CreateJob(s, requester, token, amount, deadline, arbiter).value.0)
  {
    hide Transfer, PayoutsFor, DisputeOpenedAt;
    var s' := CreateJob(s, requester, token, amount, deadline, arbiter).value.0;
    var id := s'.count;
    Unseen(s.journal, id);
    JobsStay(s, s', id, s'.jobs[id]);
    ChangeKeeps(s, s', id, s'.jobs[id]);
  }

  lemma JobFacts(s: State, id: u64)
    requires Inv(s) && id in s.jobs
    ensures JobOk(s.self, s.jobs[id], PayoutsFor(s.journal, id), DisputeOpenedAt(s.journal, id))
    ensures 1 <= id <= s.count
  {}

  lemma AcceptKeeps(s: State, worker: Address, id: u64)
    requires Inv(s) && AcceptJob(s, worker, id).Ok?
    ensures Kept(s, AcceptJob(s, worker, id).value.0)
  {
    hide Inv, PayoutsFor, DisputeOpenedAt;
    var s' := AcceptJob(s, worker, id).value.0;
    JobFacts(s, id);
    Parts(s);
    JobsStay(s, s', id, s'.jobs[id]);
    ChangeKeeps(s, s', id, s'.jobs[id]);
  }

  lemma Parts(s: State)
    requires Inv(s)
    ensures Solvent(s.balances) && JobsOk(s.self, s.jobs, s.journal)
  {}

  lemma SubmitKeeps(s: State, worker: Address, id: u64, result: seq<bv8>)
    requires Inv(s) && SubmitResult(s, worker, id, result).Ok?
    ensures Kept(s, SubmitResult(s, worker, id, result).value.0)
  {
    hide Inv, PayoutsFor, DisputeOpenedAt;
    var s' := SubmitResult(s, worker, id, result).value.0;
    JobFacts(s, id);
    Parts(s);
    JobsStay(s, s', id, s'.jobs[id]);
    ChangeKeeps(s, s', id, s'.jobs[id]);
  }

  lemma DisputeKeeps(s: State, requester: Address, id: u64)
    requires Inv(s) && Dispute(s, requester, id).Ok?
    ensures Kept(s, Dispute(s, requester, id).value.0)
  {
    hide Inv, PayoutsFor, DisputeOpenedAt;
    var s' := Dispute(s, requester, id).value.0;
    JobFacts(s, id);
    Parts(s);
    Appended(s.journal, DisputeOpened(id, s.now));
    JobsStay(s, s', id, s'.jobs[id]);
    ChangeKeeps(s, s', id, s'.jobs[id]);
  }

  /** Ending a live job the right way. */
  lemma SettleKeeps(s: State, id: u64, to: Address, status: Status, ruled: bool)
    requires Inv(s) && id in s.jobs && !Ended(s.jobs[id]) && Settle(s, id, to, status, ruled).Ok?
    requires var job := s.jobs[id];
             (status == Completed && job.worker == Some(to))
             || (status == Refunded && job.requester == to
                 && RefundIsJustified(job, Payout(to, job.amount, s.now, ruled), DisputeOpenedAt(s.journal, id)))
    ensures Kept(s, Settle(s, id, to, status, ruled).value.0)
  {
    hide Inv, Transfer, PayoutsFor, DisputeOpenedAt;
    var s' := Settle(s, id, to, status, ruled).value.0;
    JobFacts(s, id);
    Parts(s);
    Appended(s.journal, Paid(id, to, s.jobs[id].amount, s.now, ruled));
    JobsStay(s, s', id, s'.jobs[id]);
    ChangeKeeps(s, s', id, s'.jobs[id]);
  }

  lemma PayoutKeeps(s: State, op: Op)
    requires Inv(s) && Step(s, op).Ok? && (op.OpRelease? || op.OpRefund? || op.OpResolve?)
    ensures Kept(s, Step(s, op).value)
  {
    hide Inv, Settle, PayoutsFor, DisputeOpenedAt;
    JobFacts(s, op.id);
    var job := s.jobs[op.id];
    match op
    case OpRelease(_, id) => SettleKeeps(s, id, job.worker.value, Completed, false);
    case OpRefund(_, id) => SettleKeeps(s, id, job.requester, Refunded, false);
    case OpResolve(_, id, favor) =>
      if favor {
        SettleKeeps(s, id, job.worker.value, Completed, true);
      } else {
        SettleKeeps(s, id, job.requester, Refunded, true);
      }
  }

  lemma OutsideKeeps(s: State, now: u32, paused: bool, balances: Balances)
    requires Inv(s) && Permitted(s, now, balances)
    ensures Kept(s, s.(now := now, paused := paused, balances := balances))
  {
    var s' := s.(now := now, paused := paused, balances := balances);
    assert forall t :: Surplus(s, t) <= Surplus(s', t);
  }

  lemma StepKeeps(s: State, op: Op)
    requires Inv(s)
    ensures Kept(s, Apply(s, op))
  {
    hide Inv, CreateJob, AcceptJob, SubmitResult, Release, Refund, Dispute, ResolveDispute;
    if Step(s, op).Ok? {
      match op
      case OpCreate(r, t, a, d, b) => CreateKeeps(s, r, t, a, d, b);
      case OpAccept(w, id) => AcceptKeeps(s, w, id);
      case OpSubmit(w, id, x) => SubmitKeeps(s, w, id, x);
      case OpRelease(_, _) => PayoutKeeps(s, op);
      case OpRefund(_, _) => PayoutKeeps(s, op);
      case OpDispute(r, id) => DisputeKeeps(s, r, id);
      case OpResolve(_, _, _) => PayoutKeeps(s, op);
      case OpOutside(now, paused, b) => OutsideKeeps(s, now, paused, b);
    }
  }

  lemma {:induction false} RunKeeps(s: State, ops: seq<Op>)
    requires Inv(s)
    ensures Kept(s, Run(s, ops))
    decreases |ops|
  {
    hide Inv, Apply;
    if ops != [] {
      StepKeeps(s, ops[0]);
      RunKeeps(Apply(s, ops[0]), ops[1..]);
    }
  }

  lemma FreshIsFine(s: State)
    requires Fresh(s)
    ensures Inv(s)
  {
    forall t
      ensures 0 <= Surplus(s, t)
    {
      assert LockedIn(s.jobs, t) == map[];
    }
  }
}
