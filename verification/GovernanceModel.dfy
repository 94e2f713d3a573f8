/** The k-of-n governance contract as a state machine: one function per entry
    point, from a state to the state it leaves or the reason it reverts. */
module GovernanceModel {
  import opened Base

  datatype Status = Pending | Approved | Executed | Cancelled | Expired

  /** What a proposal asks this contract to do to itself. `Unknown` is any other
      symbol and `Malformed` an argument list that does not decode. */
  datatype Action =
    | RotateOwners(owners: seq<Address>, threshold: u32)
    | SetTimelock(timelock: u32)
    | SetProposalTtl(ttl: u32)
    | Malformed
    | Unknown

  datatype Proposal = Proposal(
    proposer: Address,
    target: Address,
    action: Action,
    status: Status,
    created: u32,
    approved: Option<u32>,
    executed: Option<u32>,
    eta: Option<u32>)

  datatype Ballot = Ballot(id: u32, voter: Address)

  /** History kept for the statements only: who voted under which rules, and
      which executions went through. */
  datatype Event =
    | VoteCast(id: u32, voter: Address, ledger: u32, owners: seq<Address>, threshold: u32, timelock: u32)
    | Performed(id: u32, ledger: u32, threshold: u32, ttl: u32)

  datatype State = State(
    self: Address,
    now: u32,
    initialized: bool,
    owners: seq<Address>,
    threshold: u32,
    timelock: u32,
    ttl: u32,
    nextId: u32,
    proposals: map<u32, Proposal>,
    approvals: map<u32, seq<Address>>,
    ballots: set<Ballot>,
    journal: seq<Event>)

  predicate Distinct(v: seq<Address>) {
    forall i, j | 0 <= i < j < |v| :: v[i] != v[j]
  }

  function Validate(owners: seq<Address>, threshold: u32): Result<()> {
    var _ :- Need(owners != [], EmptyOwners);
    var _ :- Need(0 < threshold <= |owners|, InvalidThreshold);
    Need(Distinct(owners), Duplicate)
  }

  function Initialize(s: State, owners: seq<Address>, threshold: u32, timelock: u32, ttl: u32): Result<(State, ())> {
    var _ :- Need(!s.initialized, AlreadyInitialized);
    var _ :- Validate(owners, threshold);
    var _ :- Need(ttl != 0, InvalidTtl);
    var _ :- Need(timelock < ttl, InvalidTimelock);
    Ok((s.(initialized := true, owners := owners, threshold := threshold, timelock := timelock, ttl := ttl, nextId := 1), ()))
  }

  function Propose(s: State, proposer: Address, target: Address, action: Action): Result<(State, u32)> {
    var _ :- Need(s.initialized, NotInitialized);
    var _ :- Need(proposer in s.owners, NotOwner);
    var id := s.nextId;
    var _ :- Need(id < U32_MAX, Overflow);
    var quorum := 1 >= s.threshold;
    var _ :- Need(quorum ==> s.now + s.timelock <= U32_MAX, Overflow);
    var p := Proposal(proposer, target, action, if quorum then Approved else Pending, s.now,
                      if quorum then Some(s.now) else None, None,
                      if quorum then Some(s.now + s.timelock) else None);
    Ok((s.(nextId := id + 1,
           proposals := s.proposals[id := p],
           approvals := s.approvals[id := [proposer]],
           ballots := s.ballots + {Ballot(id, proposer)},
           journal := s.journal + [VoteCast(id, proposer, s.now, s.owners, s.threshold, s.timelock)]), id))
  }

  /** A stored proposal, shown as expired once its time to live has run out. */
  function GetProposal(s: State, id: u32): Result<Proposal> {
    var _ :- Need(id in s.proposals, NotFound);
    var p := s.proposals[id];
    if p.status == Pending || p.status == Approved then
      var _ :- Need(p.created + s.ttl <= U32_MAX, Overflow);
      Ok(if s.now > p.created + s.ttl then p.(status := Status.Expired) else p)
    else
      Ok(p)
  }

  function Approvals(s: State, id: u32): seq<Address> {
    if id in s.approvals then s.approvals[id] else []
  }

  /** The proposal, if this owner may vote for it now. */
  function MayVote(s: State, owner: Address, id: u32): Result<Proposal> {
    var _ :- Need(s.initialized, NotInitialized);
    var _ :- Need(owner in s.owners, NotOwner);
    var p :- GetProposal(s, id);
    var _ :- Need(p.created + s.ttl <= U32_MAX, Overflow);
    var _ :- Need(s.now <= p.created + s.ttl, Error.Expired);
    var _ :- Need(p.status == Pending || p.status == Approved, WrongStatus);
    var _ :- Need(Ballot(id, owner) !in s.ballots, AlreadyApproved);
    Ok(p)
  }

  function Approve(s: State, owner: Address, id: u32): Result<(State, ())> {
    var p :- MayVote(s, owner, id);
    var approvals := Approvals(s, id) + [owner];
    var quorum := |approvals| >= s.threshold && p.approved.None?;
    var _ :- Need(quorum ==> s.now + s.timelock <= U32_MAX, Overflow);
    var p' := if quorum then p.(status := Approved, approved := Some(s.now), eta := Some(s.now + s.timelock)) else p;
    Ok((s.(proposals := s.proposals[id := p'],
           approvals := s.approvals[id := approvals],
           ballots := s.ballots + {Ballot(id, owner)},
           journal := s.journal + [VoteCast(id, owner, s.now, s.owners, s.threshold, s.timelock)]), ()))
  }

  /** `accepts` says whether the external target goes through; it is not asked
      when the target is this contract. */
  function Execute(s: State, id: u32, accepts: bool): Result<(State, ())> {
    var _ :- Need(s.initialized, NotInitialized);
    var p :- GetProposal(s, id);
    var _ :- Need(p.status != Executed, WrongStatus);
    var _ :- Need(p.created + s.ttl <= U32_MAX, Overflow);
    var _ :- Need(s.now <= p.created + s.ttl, Error.Expired);
    var _ :- Need(|Approvals(s, id)| >= s.threshold, ThresholdNotMet);
    var _ :- Need(p.eta.Some?, ThresholdNotMet);
    var _ :- Need(s.now >= p.eta.value, TimelockNotElapsed);
    var marked := s.(proposals := s.proposals[id := p.(status := Executed, executed := Some(s.now))],
                     journal := s.journal + [Performed(id, s.now, s.threshold, s.ttl)]);
    if p.target == s.self then
      Internal(marked, p.action)
    else
      var _ :- Need(accepts, InvocationFailed);
      Ok((marked, ()))
  }

  function Internal(s: State, action: Action): Result<(State, ())> {
    match action
    case RotateOwners(owners, threshold) =>
      var _ :- Validate(owners, threshold);
      Ok((s.(owners := owners, threshold := threshold), ()))
    case SetTimelock(timelock) =>
      var _ :- Need(timelock < s.ttl, InvalidTimelock);
      Ok((s.(timelock := timelock), ()))
    case SetProposalTtl(ttl) =>
      var _ :- Need(s.timelock < ttl, InvalidTtl);
      Ok((s.(ttl := ttl), ()))
    case Malformed => Err(InvocationFailed)
    case Unknown => Err(SelfCallOnly)
  }

  function Cancel(s: State, caller: Address, id: u32): Result<(State, ())> {
    var _ :- Need(s.initialized, NotInitialized);
    var p :- GetProposal(s, id);
    var _ :- Need(p.proposer == caller || caller in s.owners, NotAuthorized);
    var _ :- Need(p.status != Executed, WrongStatus);
    Ok((s.(proposals := s.proposals[id := p.(status := Cancelled)]), ()))
  }

  // ---- Runs ----

  /** Every transaction. `OpDirect` is a call of one of the three public setters,
      which only ever refuse; `OpPass` is time going by. */
  datatype Op =
    | OpInitialize(owners: seq<Address>, threshold: u32, timelock: u32, ttl: u32)
    | OpPropose(proposer: Address, target: Address, action: Action)
    | OpApprove(owner: Address, id: u32)
    | OpExecute(id: u32, accepts: bool)
    | OpCancel(caller: Address, id: u32)
    | OpDirect(action: Action)
    | OpPass(now: u32)

  function Step(s: State, op: Op): Result<State> {
    match op
    case OpInitialize(o, k, d, t) => Post(Initialize(s, o, k, d, t))
    case OpPropose(p, t, a) => Post(Propose(s, p, t, a))
    case OpApprove(o, id) => Post(Approve(s, o, id))
    case OpExecute(id, accepts) => Post(Execute(s, id, accepts))
    case OpCancel(c, id) => Post(Cancel(s, c, id))
    case OpDirect(_) => Err(SelfCallOnly)
    case OpPass(now) => if s.now <= now then Ok(s.(now := now)) else Err(NotAuthorized)
  }

  function Post<V>(r: Result<(State, V)>): Result<State> {
    if r.Ok? then Ok(r.value.0) else Err(r.error)
  }

  function Apply(s: State, op: Op): State {
    if Step(s, op).Ok? then Step(s, op).value else s
  }

  function Run(s: State, ops: seq<Op>): State
    decreases |ops|
  {
    if ops == [] then s else Run(Apply(s, ops[0]), ops[1..])
  }

  function Fresh(self: Address, now: u32): State {
    State(self, now, false, [], 0, 0, 0, 1, map[], map[], {}, [])
  }
}
