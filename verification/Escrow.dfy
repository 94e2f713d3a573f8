/** The escrow contract as it is written: jobs rewritten in storage, tokens moved
    as it goes, each entry point proved against its transition function. */
module EscrowContract {
  import opened Base
  import opened Tokens
  import E = EscrowModel
  import opened EscrowModel
  import opened EscrowProofs

  class Escrow {
    const self: Address
    const host: Host

    var jobs: map<u64, Job>
    var count: u64
    ghost var journal: seq<Event>

    ghost function View(): State
      reads this, host
    {
      State(self, host.ledger, host.paused, host.balances, jobs, count, journal)
    }

    ghost predicate Valid()
      reads this, host
    {
      Inv(View())
    }

    constructor (self: Address, host: Host)
      requires Solvent(host.balances)
      ensures this.self == self && this.host == host && Valid() && Fresh(View())
    {
      this.self, this.host := self, host;
      jobs, count, journal := map[], 0, [];
      new;
      FreshIsFine(View());
    }

    method CreateJob(requester: Address, token: Address, amount: i128, deadline: u32, arbiter: Option<Address>)
      returns (r: Result<u64>)
      requires Valid()
      modifies this, host`balances
      ensures View() == After(old(View()), E.CreateJob(old(View()), requester, token, amount, deadline, arbiter))
      ensures r == Seen(E.CreateJob(old(View()), requester, token, amount, deadline, arbiter))
      ensures Valid()
    {
      hide Inv, Transfer;
      StepKeeps(View(), OpCreate(requester, token, amount, deadline, arbiter));
      if requester == self {
        return Err(NotAuthorized);
      }
      if amount <= 0 {
        return Err(AmountNotPositive);
      }
      if deadline <= host.ledger {
        return Err(BadDeadline);
      }
      var saved := host.balances;
      var moved := host.TransferTokens(token, requester, self, amount);
      if moved.Err? {
        return Err(moved.error);
      }
      if count >= U64_MAX {
        host.balances := saved;
        return Err(Overflow);
      }
      count := count + 1;
      jobs := jobs[count := Job(requester, None, arbiter, token, amount, None, deadline, None, Open, host.ledger)];
      return Ok(count);
    }

    method AcceptJob(worker: Address, id: u64) returns (r: Result<()>)
      requires Valid()
      modifies this
      ensures View() == After(old(View()), E.AcceptJob(old(View()), worker, id))
      ensures r == Seen(E.AcceptJob(old(View()), worker, id))
      ensures Valid()
    {
      hide Inv;
      StepKeeps(View(), OpAccept(worker, id));
      if worker == self {
        return Err(NotAuthorized);
      }
      if id !in jobs {
        return Err(NotFound);
      }
      var job := jobs[id];
      if job.status != Open {
        return Err(WrongStatus);
      }
      if host.ledger >= job.deadline {
        return Err(Error.Expired);
      }
      job := job.(worker := Some(worker));
      job := job.(status := InProgress);
      jobs := jobs[id := job];
      return Ok(());
    }

    method SubmitResult(worker: Address, id: u64, result: seq<bv8>) returns (r: Result<()>)
      requires Valid()
      modifies this
      ensures View() == After(old(View()), E.SubmitResult(old(View()), worker, id, result))
      ensures r == Seen(E.SubmitResult(old(View()), worker, id, result))
      ensures Valid()
    {
      hide Inv;
      StepKeeps(View(), OpSubmit(worker, id, result));
      if id !in jobs {
        return Err(NotFound);
      }
      var job := jobs[id];
      if job.status != InProgress {
        return Err(WrongStatus);
      }
      if job.worker != Some(worker) {
        return Err(NotParty);
      }
      job := job.(result := Some(result));
      job := job.(status := PendingRelease);
      jobs := jobs[id := job];
      return Ok(());
    }

    /** Pays the price out and ends the job; a refused transfer changes nothing. */
    method Settle(id: u64, to: Address, status: Status, ruled: bool) returns (r: Result<()>)
      requires id in jobs
      modifies this, host`balances
      ensures View() == After(old(View()), E.Settle(old(View()), id, to, status, ruled))
      ensures r == Seen(E.Settle(old(View()), id, to, status, ruled))
    {
      hide Transfer;
      var job := jobs[id];
      var moved := host.TransferTokens(job.token, self, to, job.amount);
      if moved.Err? {
        return Err(moved.error);
      }
      journal := journal + [Paid(id, to, job.amount, host.ledger, ruled)];
      job := job.(status := status);
      jobs := jobs[id := job];
      return Ok(());
    }

    method Release(releaser: Address, id: u64) returns (r: Result<()>)
      requires Valid()
      modifies this, host`balances
      ensures View() == After(old(View()), E.Release(old(View()), releaser, id))
      ensures r == Seen(E.Release(old(View()), releaser, id))
      ensures Valid()
    {
      hide Inv, E.Settle;
      StepKeeps(View(), OpRelease(releaser, id));
      if host.paused {
        return Err(Error.Paused);
      }
      if id !in jobs {
        return Err(NotFound);
      }
      var job := jobs[id];
      if job.status != PendingRelease {
        return Err(WrongStatus);
      }
      if job.requester != releaser {
        return Err(NotAuthorized);
      }
      if job.worker.None? {
        return Err(NotParty);
      }
      r := Settle(id, job.worker.value, Completed, false);
    }

    method Refund(requester: Address, id: u64) returns (r: Result<()>)
      requires Valid()
      modifies this, host`balances
      ensures View() == After(old(View()), E.Refund(old(View()), requester, id))
      ensures r == Seen(E.Refund(old(View()), requester, id))
      ensures Valid()
    {
      hide Inv, E.Settle;
      StepKeeps(View(), OpRefund(requester, id));
      if id !in jobs {
        return Err(NotFound);
      }
      var job := jobs[id];
      if job.requester != requester {
        return Err(NotAuthorized);
      }
      if job.status == Completed || job.status == Refunded {
        return Err(WrongStatus);
      }
      if job.status == Disputed {
        if job.disputeDeadline.None? || host.ledger <= job.disputeDeadline.value {
          return Err(BadDeadline);
        }
      } else if host.ledger < job.deadline && job.status != Open {
        return Err(BadDeadline);
      }
      r := Settle(id, requester, Refunded, false);
    }

    method Dispute(requester: Address, id: u64) returns (r: Result<()>)
      requires Valid()
      modifies this
      ensures View() == After(old(View()), E.Dispute(old(View()), requester, id))
      ensures r == Seen(E.Dispute(old(View()), requester, id))
      ensures Valid()
    {
      hide Inv;
      StepKeeps(View(), OpDispute(requester, id));
      if id !in jobs {
        return Err(NotFound);
      }
      var job := jobs[id];
      if job.requester != requester {
        return Err(NotAuthorized);
      }
      if job.arbiter.None? {
        return Err(NoArbiter);
      }
      if job.status != PendingRelease {
        return Err(WrongStatus);
      }
      if host.ledger + DISPUTE_TIMEOUT_LEDGERS > U32_MAX {
        return Err(Overflow);
      }
      job := job.(status := Disputed);
      job := job.(disputeDeadline := Some(host.ledger + DISPUTE_TIMEOUT_LEDGERS));
      jobs := jobs[id := job];
      journal := journal + [DisputeOpened(id, host.ledger)];
      return Ok(());
    }

    method ResolveDispute(arbiter: Address, id: u64, favorWorker: bool) returns (r: Result<()>)
      requires Valid()
      modifies this, host`balances
      ensures View() == After(old(View()), E.ResolveDispute(old(View()), arbiter, id, favorWorker))
      ensures r == Seen(E.ResolveDispute(old(View()), arbiter, id, favorWorker))
      ensures Valid()
    {
      hide Inv, E.Settle;
      StepKeeps(View(), OpResolve(arbiter, id, favorWorker));
      if host.paused {
        return Err(Error.Paused);
      }
      if id !in jobs {
        return Err(NotFound);
      }
      var job := jobs[id];
      if job.status != Disputed {
        return Err(WrongStatus);
      }
      if job.arbiter != Some(arbiter) {
        return Err(NoArbiter);
      }
      if favorWorker {
        if job.worker.None? {
          return Err(NotParty);
        }
        r := Settle(id, job.worker.value, Completed, true);
      } else {
        r := Settle(id, job.requester, Refunded, true);
      }
    }
  }
}
