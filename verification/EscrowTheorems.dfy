/** What the escrow promises requesters and workers, on every run. */
module EscrowTheorems {
  import opened Base
  import opened MapSum
  import opened Tokens
  import opened EscrowModel
  import opened EscrowProofs

  /** The contract always holds the price of every live job, and tokens beyond
      that never leave it. */
  lemma PricesAreHeld(s: State, ops: seq<Op>, token: Address)
    requires Fresh(s)
    ensures var s' := Run(s, ops);
            && Sum<u64>(LockedIn(s'.jobs, token)) <= BalanceOf(s'.balances, token, s'.self)
            && BalanceOf(s.balances, token, s.self)
               <= BalanceOf(s'.balances, token, s'.self) - Sum<u64>(LockedIn(s'.jobs, token))
  {
    hide Run, JobsOk;
    FreshIsFine(s);
    RunKeeps(s, ops);
    assert Surplus(s, token) <= Surplus(Run(s, ops), token);
    assert LockedIn(s.jobs, token) == map[];
  }

  /** On every run a live job has paid nothing, and an ended one has paid its
      price exactly once, to its worker if completed and to its requester if
      refunded. */
  lemma PaidExactlyOnce(s: State, ops: seq<Op>, id: u64)
    requires Fresh(s) && id in Run(s, ops).jobs
    ensures var s' := Run(s, ops);
            var job, payouts := s'.jobs[id], PayoutsFor(s'.journal, id);
            if !Ended(job) then payouts == []
            else |payouts| == 1 && payouts[0].amount == job.amount
                 && (if job.status.Completed? then job.worker == Some(payouts[0].to) else job.requester == payouts[0].to)
  {
    hide Run, Inv, PayoutsFor, DisputeOpenedAt;
    FreshIsFine(s);
    RunKeeps(s, ops);
    JobFacts(Run(s, ops), id);
  }

  /** A job somebody accepted is refunded before its deadline only by the
      arbiter's ruling in an open dispute, or because the dispute sat for more
      than its 14400 ledgers. */
  lemma EarlyRefundNeedsADispute(s: State, ops: seq<Op>, id: u64)
    requires Fresh(s) && id in Run(s, ops).jobs
    requires Run(s, ops).jobs[id].status.Refunded? && Run(s, ops).jobs[id].worker.Some?
    ensures var s' := Run(s, ops);
            var job, payouts, begun := s'.jobs[id], PayoutsFor(s'.journal, id), DisputeOpenedAt(s'.journal, id);
            |payouts| == 1 &&
            (payouts[0].ledger < job.deadline ==>
               job.arbiter.Some? && begun.Some?
               && (payouts[0].ruled || begun.value + 14_400 < payouts[0].ledger))
  {
    hide Run, Inv, PayoutsFor, DisputeOpenedAt;
    FreshIsFine(s);
    RunKeeps(s, ops);
    JobFacts(Run(s, ops), id);
  }

  // ---- Progress ----

  function Rank(status: Status): nat {
    match status
    case Open => 0
    case InProgress => 1
    case PendingRelease => 2
    case Disputed => 3
    case Completed => 4
    case Refunded => 4
  }

  /** A job's terms and its worker are fixed, it only moves forward, and once
      ended it never changes again. */
  predicate Continues(job: Job, job': Job) {
    && job' == job.(worker := job'.worker, result := job'.result, disputeDeadline := job'.disputeDeadline, status := job'.status)
    && (job.worker.Some? ==> job'.worker == job.worker)
    && Rank(job.status) <= Rank(job'.status)
    && (Ended(job) || job.status == job'.status ==> job' == job)
  }

  lemma StepContinues(s: State, op: Op)
    requires Inv(s)
    ensures forall id | id in s.jobs :: id in Apply(s, op).jobs && Continues(s.jobs[id], Apply(s, op).jobs[id])
  {
    hide Inv, Transfer, PayoutsFor, DisputeOpenedAt, RefundIsJustified;
    if Step(s, op).Ok? && !op.OpCreate? && !op.OpOutside? {
      JobFacts(s, op.id);
    }
    if op.OpCreate? && Step(s, op).Ok? {
      FreshId(s);
    }
  }

  lemma FreshId(s: State)
    requires Inv(s)
    ensures forall id | id in s.jobs :: id <= s.count
  {}

  lemma {:induction false} JobsContinue(s: State, ops: seq<Op>)
    requires Inv(s)
    ensures forall id | id in s.jobs :: id in Run(s, ops).jobs && Continues(s.jobs[id], Run(s, ops).jobs[id])
    decreases |ops|
  {
    hide Inv, Apply;
    if ops != [] {
      StepKeeps(s, ops[0]);
      StepContinues(s, ops[0]);
      JobsContinue(Apply(s, ops[0]), ops[1..]);
    }
  }

  // ---- Who can end a job, and when ----

  /** The ledger from which the requester may take a live job's price back. */
  function RefundableFrom(job: Job): int {
    if job.status.Open? then 0
    else if job.status.Disputed? && job.disputeDeadline.Some? then job.disputeDeadline.value + 1
    else job.deadline
  }

  predicate Receivable(s: State, job: Job, to: Address) {
    BalanceOf(s.balances, job.token, to) + job.amount <= I128_MAX
  }

  /** Custody makes the price always payable, so only the terms decide. */
  lemma SettleSucceedsIff(s: State, id: u64, to: Address, status: Status, ruled: bool)
    requires Inv(s) && id in s.jobs && !Ended(s.jobs[id]) && to != s.self
    ensures Settle(s, id, to, status, ruled).Ok? <==> Receivable(s, s.jobs[id], to)
  {
    hide JobsOk;
    var job := s.jobs[id];
    LockedCovers(s.jobs, id);
    assert 0 <= Surplus(s, job.token);
  }

  lemma RefundSucceedsIff(s: State, requester: Address, id: u64)
    requires Inv(s)
    ensures Refund(s, requester, id).Ok? <==>
              && id in s.jobs
              && var job := s.jobs[id];
                 job.requester == requester && !Ended(job) && RefundableFrom(job) <= s.now && Receivable(s, job, requester)
  {
    hide Settle, PayoutsFor, DisputeOpenedAt;
    if id in s.jobs {
      JobFacts(s, id);
      if !Ended(s.jobs[id]) {
        SettleSucceedsIff(s, id, s.jobs[id].requester, Refunded, false);
      }
    }
    hide Inv;
  }

  lemma ReleaseSucceedsIff(s: State, releaser: Address, id: u64)
    requires Inv(s)
    ensures Release(s, releaser, id).Ok? <==>
              && id in s.jobs && !s.paused
              && var job := s.jobs[id];
                 job.requester == releaser && job.status.PendingRelease? && job.worker.Some?
                 && Receivable(s, job, job.worker.value)
  {
    hide Settle, PayoutsFor, DisputeOpenedAt;
    if id in s.jobs {
      JobFacts(s, id);
      if s.jobs[id].status.PendingRelease? {
        SettleSucceedsIff(s, id, s.jobs[id].worker.value, Completed, false);
      }
    }
    hide Inv;
  }

  /** No price is stuck: the requester of a live job can take it back at some
      later ledger, unless receiving it would overflow or a dispute runs to the
      last ledger there is. */
  lemma NoPriceIsStuckIff(s: State, id: u64)
    requires Inv(s) && id in s.jobs && !Ended(s.jobs[id])
    ensures var job := s.jobs[id];
            (exists t: u32 :: s.now <= t && Step(s.(now := t), OpRefund(job.requester, id)).Ok?)
            <==> RefundableFrom(job) <= U32_MAX && Receivable(s, job, job.requester)
  {
    var job := s.jobs[id];
    forall t: u32 | s.now <= t
      ensures Step(s.(now := t), OpRefund(job.requester, id)).Ok?
              <==> RefundableFrom(job) <= t && Receivable(s, job, job.requester)
    {
      hide JobsOk, Refund;
      assert forall x :: Surplus(s.(now := t), x) == Surplus(s, x);
      RefundSucceedsIff(s.(now := t), job.requester, id);
    }
    hide Inv, Step;
    if RefundableFrom(job) <= U32_MAX && Receivable(s, job, job.requester) {
      var t: u32 := Max(s.now, RefundableFrom(job));
      assert Step(s.(now := t), OpRefund(job.requester, id)).Ok?;
    }
  }

  /** Delivered work is not protected past the deadline: on every run from its
      submission on, while the result is undisputed and unreleased, the requester
      can take the price back exactly from the deadline on. */
  lemma DeliveredWorkIsRefundableIff(s: State, worker: Address, id: u64, result: seq<bv8>, ops: seq<Op>)
    requires Inv(s) && SubmitResult(s, worker, id, result).Ok?
    requires var end := Run(SubmitResult(s, worker, id, result).value.0, ops);
             id in end.jobs && end.jobs[id].status.PendingRelease?
    ensures var end, job := Run(SubmitResult(s, worker, id, result).value.0, ops), s.jobs[id];
            Refund(end, job.requester, id).Ok? <==> job.deadline <= end.now && Receivable(end, job, job.requester)
  {
    hide Inv, Refund, Run;
    SubmitKeeps(s, worker, id, result);
    var mid := SubmitResult(s, worker, id, result).value.0;
    JobsContinue(mid, ops);
    RunKeeps(mid, ops);
    assert Continues(mid.jobs[id], Run(mid, ops).jobs[id]);
    RefundSucceedsIff(Run(mid, ops), s.jobs[id].requester, id);
  }
}
