/** The governance contract as it is written: storage updated in place, one
    method per entry point, each proved against its transition function. */
module GovernanceContract {
  import opened Base
  import opened Tokens
  import G = GovernanceModel
  import opened GovernanceModel
  import opened GovernanceProofs

  class Governance {
    const self: Address
    const host: Host

    var initialized: bool
    var owners: seq<Address>
    var threshold: u32
    var timelock: u32
    var ttl: u32
    var nextId: u32
    var proposals: map<u32, Proposal>
    var approvals: map<u32, seq<Address>>
    var ballots: set<Ballot>
    ghost var journal: seq<Event>

    ghost function View(): State
      reads this, host
    {
      State(self, host.ledger, initialized, owners, threshold, timelock, ttl, nextId, proposals, approvals, ballots, journal)
    }

    ghost predicate Valid()
      reads this, host
    {
      Inv(View())
    }

    constructor (self: Address, host: Host)
      ensures this.self == self && this.host == host
      ensures Valid() && View() == Fresh(self, host.ledger)
    {
      this.self, this.host := self, host;
      initialized, owners, threshold, timelock, ttl, nextId := false, [], 0, 0, 0, 1;
      proposals, approvals, ballots, journal := map[], map[], {}, [];
    }

    /** The nested scan for a repeated owner. */
    method ValidateOwnersAndThreshold(candidates: seq<Address>, k: u32) returns (r: Result<()>)
      ensures r == Validate(candidates, k)
      ensures r.Ok? <==> Proper(candidates, k)
    {
      if candidates == [] {
        return Err(EmptyOwners);
      }
      if k == 0 || k > |candidates| {
        return Err(InvalidThreshold);
      }
      for i := 0 to |candidates|
        invariant forall a, b | 0 <= a < b < |candidates| && a < i :: candidates[a] != candidates[b]
      {
        for j := i + 1 to |candidates|
          invariant forall b | i < b < j :: candidates[i] != candidates[b]
        {
          if candidates[i] == candidates[j] {
            return Err(Duplicate);
          }
        }
      }
      return Ok(());
    }

    method Initialize(candidates: seq<Address>, k: u32, delay: u32, life: u32) returns (r: Result<()>)
      requires Valid()
      modifies this
      ensures View() == After(old(View()), G.Initialize(old(View()), candidates, k, delay, life))
      ensures r == Seen(G.Initialize(old(View()), candidates, k, delay, life))
      ensures Valid()
    {
      hide Inv;
      StepKeeps(View(), OpInitialize(candidates, k, delay, life));
      if initialized {
        return Err(AlreadyInitialized);
      }
      var valid := ValidateOwnersAndThreshold(candidates, k);
      if valid.Err? {
        return Err(valid.error);
      }
      if life == 0 {
        return Err(InvalidTtl);
      }
      if delay >= life {
        return Err(InvalidTimelock);
      }
      initialized, owners, threshold, timelock, ttl, nextId := true, candidates, k, delay, life, 1;
      return Ok(());
    }

    method Propose(proposer: Address, target: Address, action: Action) returns (r: Result<u32>)
      requires Valid()
      modifies this
      ensures View() == After(old(View()), G.Propose(old(View()), proposer, target, action))
      ensures r == Seen(G.Propose(old(View()), proposer, target, action))
      ensures Valid()
    {
      hide Inv;
      StepKeeps(View(), OpPropose(proposer, target, action));
      if !initialized {
        return Err(NotInitialized);
      }
      if proposer !in owners {
        return Err(NotOwner);
      }
      var id := nextId;
      if id >= U32_MAX {
        return Err(Overflow);
      }
      var quorum := 1 >= threshold;
      if quorum && host.ledger + timelock > U32_MAX {
        return Err(Overflow);
      }
      nextId := id + 1;
      approvals := approvals[id := [proposer]];
      ballots := ballots + {Ballot(id, proposer)};
      var status, approved, eta := Pending, None, None;
      if quorum {
        status, approved, eta := Approved, Some(host.ledger), Some(host.ledger + timelock);
      }
      proposals := proposals[id := Proposal(proposer, target, action, status, host.ledger, approved, None, eta)];
      journal := journal + [VoteCast(id, proposer, host.ledger, owners, threshold, timelock)];
      return Ok(id);
    }

    /** Reads a proposal: as stored, but as expired exactly when it could still
        have been acted on and its deadline is past. */
    method GetProposal(id: u32) returns (r: Result<Proposal>)
      ensures r == G.GetProposal(View(), id)
      ensures id !in proposals <==> r == Err(NotFound)
      ensures r.Ok? ==>
                && r.value == proposals[id].(status := r.value.status)
                && (r.value.status != proposals[id].status ==> r.value.status == Status.Expired)
                && (Valid() ==>
                      (r.value.status == Status.Expired <==>
                         host.ledger > proposals[id].created + ttl
                         && proposals[id].status != Executed && proposals[id].status != Cancelled))
      ensures r.Err? && id in proposals ==> proposals[id].created + ttl > U32_MAX
    {
      if id !in proposals {
        return Err(NotFound);
      }
      var p := proposals[id];
      assert Valid() ==> RecordAgrees(p, journal, id);
      if p.status == Pending || p.status == Approved {
        if p.created + ttl > U32_MAX {
          return Err(Overflow);
        }
        if host.ledger > p.created + ttl {
          p := p.(status := Status.Expired);
        }
      }
      return Ok(p);
    }

    method MayVote(owner: Address, id: u32) returns (r: Result<Proposal>)
      ensures r == G.MayVote(View(), owner, id)
    {
      hide G.GetProposal;
      if !initialized {
        return Err(NotInitialized);
      }
      if owner !in owners {
        return Err(NotOwner);
      }
      var found := GetProposal(id);
      if found.Err? {
        return found;
      }
      var p := found.value;
      if p.created + ttl > U32_MAX {
        return Err(Overflow);
      }
      if host.ledger > p.created + ttl {
        return Err(Error.Expired);
      }
      if p.status != Pending && p.status != Approved {
        return Err(WrongStatus);
      }
      if Ballot(id, owner) in ballots {
        return Err(AlreadyApproved);
      }
      return found;
    }

    method Approve(owner: Address, id: u32) returns (r: Result<()>)
      requires Valid()
      modifies this
      ensures View() == After(old(View()), G.Approve(old(View()), owner, id))
      ensures r == Seen(G.Approve(old(View()), owner, id))
      ensures Valid()
    {
      hide Inv, G.MayVote;
      StepKeeps(View(), OpApprove(owner, id));
      var vote := MayVote(owner, id);
      if vote.Err? {
        return Err(vote.error);
      }
      var p := vote.value;
      var list := (if id in approvals then approvals[id] else []) + [owner];
      if |list| >= threshold && p.approved.None? {
        if host.ledger + timelock > U32_MAX {
          return Err(Overflow);
        }
        p := p.(status := Approved, approved := Some(host.ledger), eta := Some(host.ledger + timelock));
      }
      approvals := approvals[id := list];
      ballots := ballots + {Ballot(id, owner)};
      proposals := proposals[id := p];
      journal := journal + [VoteCast(id, owner, host.ledger, owners, threshold, timelock)];
      return Ok(());
    }

    /** The proposal is marked before its target is called; a refusal by the
        target rolls the mark back with the rest of the transaction. */
    method Execute(id: u32, accepts: bool) returns (r: Result<()>)
      requires Valid()
      modifies this
      ensures View() == After(old(View()), G.Execute(old(View()), id, accepts))
      ensures r == Seen(G.Execute(old(View()), id, accepts))
      ensures Valid()
    {
      hide Inv, G.GetProposal;
      StepKeeps(View(), OpExecute(id, accepts));
      if !initialized {
        return Err(NotInitialized);
      }
      var found := GetProposal(id);
      if found.Err? {
        return Err(found.error);
      }
      var p := found.value;
      if p.status == Executed {
        return Err(WrongStatus);
      }
      if p.created + ttl > U32_MAX {
        return Err(Overflow);
      }
      if host.ledger > p.created + ttl {
        return Err(Error.Expired);
      }
      if |if id in approvals then approvals[id] else []| < threshold || p.eta.None? {
        return Err(ThresholdNotMet);
      }
      if host.ledger < p.eta.value {
        return Err(TimelockNotElapsed);
      }
      var saved := proposals;
      ghost var before := journal;
      proposals := proposals[id := p.(status := Executed, executed := Some(host.ledger))];
      journal := journal + [Performed(id, host.ledger, threshold, ttl)];
      if p.target == self {
        r := ExecuteInternalAction(p.action);
      } else {
        r := Need(accepts, InvocationFailed);
      }
      if r.Err? {
        proposals, journal := saved, before;
      }
    }

    method ExecuteInternalAction(action: Action) returns (r: Result<()>)
      modifies this
      ensures View() == After(old(View()), Internal(old(View()), action))
      ensures r == Seen(Internal(old(View()), action))
    {
      match action
      case RotateOwners(newOwners, newThreshold) =>
        r := ValidateOwnersAndThreshold(newOwners, newThreshold);
        if r.Ok? {
          owners, threshold := newOwners, newThreshold;
        }
      case SetTimelock(delay) =>
        if delay >= ttl {
          return Err(InvalidTimelock);
        }
        timelock := delay;
        return Ok(());
      case SetProposalTtl(life) =>
        if life <= timelock {
          return Err(InvalidTtl);
        }
        ttl := life;
        return Ok(());
      case Malformed => return Err(InvocationFailed);
      case Unknown => return Err(SelfCallOnly);
    }

    method Cancel(caller: Address, id: u32) returns (r: Result<()>)
      requires Valid()
      modifies this
      ensures View() == After(old(View()), G.Cancel(old(View()), caller, id))
      ensures r == Seen(G.Cancel(old(View()), caller, id))
      ensures Valid()
    {
      hide Inv, G.GetProposal;
      StepKeeps(View(), OpCancel(caller, id));
      if !initialized {
        return Err(NotInitialized);
      }
      var found := GetProposal(id);
      if found.Err? {
        return Err(found.error);
      }
      var p := found.value;
      if p.proposer != caller && caller !in owners {
        return Err(NotAuthorized);
      }
      if p.status == Executed {
        return Err(WrongStatus);
      }
      proposals := proposals[id := p.(status := Cancelled)];
      return Ok(());
    }
  }
}
