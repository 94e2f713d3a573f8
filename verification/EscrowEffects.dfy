/** What each escrow transaction does, in the caller's terms: when it goes through,
    every balance it moves, and what it leaves in the job. */
module EscrowEffects {
  import opened Base
  import opened Tokens
  import opened EscrowModel
  import opened EscrowProofs
  import opened EscrowTheorems

  /** Only this job has changed; the journal aside, which no entry point reads. */
  ghost predicate OnlyJob(s: State, s': State, id: u64) {
    && s' == s.(balances := s'.balances, jobs := s'.jobs, count := s'.count, journal := s'.journal)
    && id in s'.jobs && s'.jobs.Keys == s.jobs.Keys + {id}
    && forall x | x in s.jobs && x != id :: s'.jobs[x] == s.jobs[x]
  }

  /** A job locks its price and stores its terms as given. */
  lemma CreateDoes(s: State, requester: Address, token: Address, amount: i128, deadline: u32, arbiter: Option<Address>)
    requires Inv(s)
    ensures var r := CreateJob(s, requester, token, amount, deadline, arbiter);
            && (r.Ok? <==> requester != s.self && 0 < amount <= BalanceOf(s.balances, token, requester)
                           && BalanceOf(s.balances, token, s.self) + amount <= I128_MAX
                           && s.now < deadline && s.count < 0xFFFF_FFFF_FFFF_FFFF)
            && (r.Ok? ==>
                  var (s', id) := r.value;
                  && id !in s.jobs && id == s.count + 1 == s'.count && OnlyJob(s, s', id)
                  && Transferred(s.balances, s'.balances, token, requester, s.self, amount)
                  && var job := s'.jobs[id];
                     && job.requester == requester && job.token == token && job.amount == amount
                     && job.deadline == deadline && job.arbiter == arbiter && job.created == s.now
                     && job.status == Open && job.worker.None? && job.result.None? && job.disputeDeadline.None?)
  {
    hide JobsOk, BalanceOf;
    assert forall id | id in s.jobs :: id <= s.count;
    hide Inv;
  }

  /** Anyone else may take an open job before its deadline, and is its worker then. */
  lemma AcceptDoes(s: State, worker: Address, id: u64)
    ensures var r := AcceptJob(s, worker, id);
            && (r.Ok? <==> worker != s.self && id in s.jobs && s.jobs[id].status == Open && s.now < s.jobs[id].deadline)
            && (r.Ok? ==>
                  var s' := r.value.0;
                  && OnlyJob(s, s', id) && s'.balances == s.balances && s'.journal == s.journal
                  && s'.jobs[id] == s.jobs[id].(worker := Some(worker), status := InProgress))
  {}

  /** Only the assigned worker hands in the result, and it is the one stored. */
  lemma SubmitDoes(s: State, worker: Address, id: u64, result: seq<bv8>)
    ensures var r := SubmitResult(s, worker, id, result);
            && (r.Ok? <==> id in s.jobs && s.jobs[id].status == InProgress && s.jobs[id].worker == Some(worker))
            && (r.Ok? ==>
                  var s' := r.value.0;
                  && OnlyJob(s, s', id) && s'.balances == s.balances && s'.journal == s.journal
                  && s'.jobs[id] == s.jobs[id].(result := Some(result), status := PendingRelease))
  {}

  /** Only the requester disputes, with an arbiter named, a result not yet released,
      for 14400 ledgers. */
  lemma DisputeDoes(s: State, requester: Address, id: u64)
    ensures var r := Dispute(s, requester, id);
            && (r.Ok? <==> id in s.jobs && s.jobs[id].requester == requester && s.jobs[id].arbiter.Some?
                           && s.jobs[id].status == PendingRelease && s.now + 14_400 <= 0xFFFF_FFFF)
            && (r.Ok? ==>
                  var s' := r.value.0;
                  && OnlyJob(s, s', id) && s'.balances == s.balances
                  && s'.jobs[id] == s.jobs[id].(status := Disputed, disputeDeadline := Some(s.now + 14_400)))
  {}

  /** The job ends with this status and exactly its price goes to `to`. */
  ghost predicate EndsPaying(s: State, s': State, id: u64, to: Address, status: Status) {
    && id in s.jobs && OnlyJob(s, s', id) && s'.count == s.count
    && s'.jobs[id] == s.jobs[id].(status := status)
    && Transferred(s.balances, s'.balances, s.jobs[id].token, s.self, to, s.jobs[id].amount)
  }

  lemma SettleDoes(s: State, id: u64, to: Address, status: Status, ruled: bool)
    requires id in s.jobs && Settle(s, id, to, status, ruled).Ok?
    ensures EndsPaying(s, Settle(s, id, to, status, ruled).value.0, id, to, status)
  {
    hide BalanceOf;
  }

  lemma ReleaseDoes(s: State, releaser: Address, id: u64)
    requires Release(s, releaser, id).Ok?
    ensures id in s.jobs && s.jobs[id].worker.Some?
    ensures EndsPaying(s, Release(s, releaser, id).value.0, id, s.jobs[id].worker.value, Completed)
  {
    hide Settle, EndsPaying;
    SettleDoes(s, id, s.jobs[id].worker.value, Completed, false);
  }

  lemma RefundDoes(s: State, requester: Address, id: u64)
    requires Refund(s, requester, id).Ok?
    ensures id in s.jobs && s.jobs[id].requester == requester
    ensures EndsPaying(s, Refund(s, requester, id).value.0, id, requester, Refunded)
  {
    hide Settle, EndsPaying;
    SettleDoes(s, id, requester, Refunded, false);
  }

  /** The arbiter's ruling is followed: in the worker's favour the job is completed and
      the worker is paid, otherwise it is refunded and the requester is. */
  lemma RulingIsFollowed(s: State, arbiter: Address, id: u64, favorWorker: bool)
    requires ResolveDispute(s, arbiter, id, favorWorker).Ok?
    ensures id in s.jobs && s.jobs[id].arbiter == Some(arbiter) && (favorWorker ==> s.jobs[id].worker.Some?)
    ensures EndsPaying(s, ResolveDispute(s, arbiter, id, favorWorker).value.0, id,
                       if favorWorker then s.jobs[id].worker.value else s.jobs[id].requester,
                       if favorWorker then Completed else Refunded)
  {
    hide Settle, EndsPaying;
    if favorWorker {
      SettleDoes(s, id, s.jobs[id].worker.value, Completed, true);
    } else {
      SettleDoes(s, id, s.jobs[id].requester, Refunded, true);
    }
  }

  /** Exactly when a ruling goes through. */
  lemma RulingSucceedsIff(s: State, arbiter: Address, id: u64, favorWorker: bool)
    requires Inv(s)
    ensures ResolveDispute(s, arbiter, id, favorWorker).Ok? <==>
              && id in s.jobs && !s.paused
              && var job := s.jobs[id];
                 job.status == Disputed && job.arbiter == Some(arbiter) && job.worker.Some?
                 && Receivable(s, job, if favorWorker then job.worker.value else job.requester)
  {
    hide Settle, PayoutsFor, DisputeOpenedAt;
    if id in s.jobs {
      JobFacts(s, id);
      if s.jobs[id].status == Disputed {
        SettleSucceedsIff(s, id, s.jobs[id].worker.value, Completed, true);
        SettleSucceedsIff(s, id, s.jobs[id].requester, Refunded, true);
      }
    }
    hide Inv;
  }
}
