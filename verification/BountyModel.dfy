/** Bug bounties as a state machine: a sponsor funds a bounty, hunters register
    payload hashes, the verifier's acceptance pays one of them. */
module BountyModel {
  import opened Base
  import opened Tokens

  type Hash = seq<bv8>

  datatype BountyStatus = Open | Paid | Expired | Cancelled

  datatype Verdict = Pending | Accepted | Rejected

  datatype Bounty = Bounty(
    sponsor: Address,
    token: Address,
    amount: Positive,
    verifier: Address,
    deadline: u32,
    status: BountyStatus,
    winner: Option<u64>,
    submissions: u64,
    created: u32)

  datatype Submission = Submission(
    bounty: u64,
    hunter: Address,
    payload: Hash,
    verdict: Verdict,
    submittedAt: u32,
    verifiedAt: Option<u32>,
    note: Option<Hash>)

  datatype PayloadKey = PayloadKey(bounty: u64, payload: Hash)

  /** History kept for the statements only. */
  datatype Payout = Payout(id: u64, to: Address, amount: int, ledger: u32)

  datatype State = State(
    self: Address,
    now: u32,
    balances: Balances,
    bounties: map<u64, Bounty>,
    subs: map<u64, Submission>,
    index: map<PayloadKey, u64>,
    bountyCount: u64,
    subCount: u64,
    journal: seq<Payout>)

  function CreateBounty(s: State, sponsor: Address, token: Address, amount: i128, verifier: Address, deadline: u32)
    : Result<(State, u64)>
  {
    var _ :- Need(sponsor != s.self, NotAuthorized);
    var _ :- Need(amount > 0, AmountNotPositive);
    var _ :- Need(s.now < deadline, BadDeadline);
    var balances :- Transfer(s.balances, token, sponsor, s.self, amount);
    var _ :- Need(s.bountyCount < U64_MAX, Overflow);
    var id := s.bountyCount + 1;
    Ok((s.(balances := balances, bountyCount := id,
           bounties := s.bounties[id := Bounty(sponsor, token, amount, verifier, deadline, Open, None, 0, s.now)]), id))
  }

  function LoadBounty(s: State, id: u64): Result<Bounty> {
    if id in s.bounties then Ok(s.bounties[id]) else Err(NotFound)
  }

  function LoadSubmission(s: State, id: u64): Result<Submission> {
    if id in s.subs then Ok(s.subs[id]) else Err(NotFound)
  }

  function SubmitPayload(s: State, hunter: Address, id: u64, payload: Hash): Result<(State, u64)> {
    var _ :- Need(hunter != s.self, NotAuthorized);
    var b :- LoadBounty(s, id);
    var _ :- Need(b.status == Open, WrongStatus);
    var _ :- Need(s.now <= b.deadline, Error.Expired);
    var key := PayloadKey(id, payload);
    var _ :- Need(key !in s.index, Duplicate);
    var _ :- Need(s.subCount < U64_MAX && b.submissions < U64_MAX, Overflow);
    var sid := s.subCount + 1;
    Ok((s.(subCount := sid,
           subs := s.subs[sid := Submission(id, hunter, payload, Pending, s.now, None, None)],
           bounties := s.bounties[id := b.(submissions := b.submissions + 1)],
           index := s.index[key := sid]), sid))
  }

  /** The prize leaves the contract and the bounty ends. */
  function PayOut(s: State, id: u64, to: Address, ended: Bounty): Result<State> {
    var balances :- Transfer(s.balances, ended.token, s.self, to, ended.amount);
    Ok(s.(balances := balances, bounties := s.bounties[id := ended],
          journal := s.journal + [Payout(id, to, ended.amount, s.now)]))
  }

  /** A submission the verifier may still decide. */
  function Decidable(s: State, verifier: Address, id: u64, sid: u64): Result<Submission> {
    var b :- LoadBounty(s, id);
    var _ :- Need(b.verifier == verifier, NotAuthorized);
    var sub :- LoadSubmission(s, sid);
    var _ :- Need(sub.bounty == id, NotParty);
    var _ :- Need(sub.verdict == Pending, WrongStatus);
    Ok(sub)
  }

  function AcceptSubmission(s: State, verifier: Address, id: u64, sid: u64, note: Hash): Result<(State, ())> {
    var b :- LoadBounty(s, id);
    var _ :- Need(b.status == Open, WrongStatus);
    var sub :- Decidable(s, verifier, id, sid);
    var s' :- PayOut(s, id, sub.hunter, b.(status := Paid, winner := Some(sid)));
    Ok((s'.(subs := s.subs[sid := sub.(verdict := Accepted, verifiedAt := Some(s.now), note := Some(note))]), ()))
  }

  function RejectSubmission(s: State, verifier: Address, id: u64, sid: u64): Result<(State, ())> {
    var sub :- Decidable(s, verifier, id, sid);
    Ok((s.(subs := s.subs[sid := sub.(verdict := Rejected, verifiedAt := Some(s.now))]), ()))
  }

  function CloseExpired(s: State, id: u64): Result<(State, ())> {
    var b :- LoadBounty(s, id);
    var _ :- Need(b.status == Open, WrongStatus);
    var _ :- Need(s.now > b.deadline, WindowOpen);
    var s' :- PayOut(s, id, b.sponsor, b.(status := BountyStatus.Expired));
    Ok((s', ()))
  }

  function CancelBounty(s: State, sponsor: Address, id: u64): Result<(State, ())> {
    var b :- LoadBounty(s, id);
    var _ :- Need(b.sponsor == sponsor, NotAuthorized);
    var _ :- Need(b.status == Open, WrongStatus);
    var _ :- Need(b.submissions == 0, TooMany);
    var s' :- PayOut(s, id, b.sponsor, b.(status := Cancelled));
    Ok((s', ()))
  }

  // ---- Runs ----

  /** `OpOutside` is time passing and anyone else moving tokens, though never out
      of this contract. */
  datatype Op =
    | OpCreate(sponsor: Address, token: Address, amount: i128, verifier: Address, deadline: u32)
    | OpSubmit(hunter: Address, id: u64, payload: Hash)
    | OpAccept(verifier: Address, id: u64, sid: u64, note: Hash)
    | OpReject(verifier: Address, id: u64, sid: u64)
    | OpClose(id: u64)
    | OpCancel(sponsor: Address, id: u64)
    | OpOutside(now: u32, balances: Balances)

  ghost predicate Permitted(s: State, now: u32, balances: Balances) {
    && s.now <= now && Solvent(balances)
    && forall t :: BalanceOf(s.balances, t, s.self) <= BalanceOf(balances, t, s.self)
  }

  ghost function Step(s: State, op: Op): Result<State> {
    match op
    case OpCreate(p, t, a, v, d) => Post(CreateBounty(s, p, t, a, v, d))
    case OpSubmit(h, id, x) => Post(SubmitPayload(s, h, id, x))
    case OpAccept(v, id, sid, n) => Post(AcceptSubmission(s, v, id, sid, n))
    case OpReject(v, id, sid) => Post(RejectSubmission(s, v, id, sid))
    case OpClose(id) => Post(CloseExpired(s, id))
    case OpCancel(p, id) => Post(CancelBounty(s, p, id))
    case OpOutside(now, b) => if Permitted(s, now, b) then Ok(s.(now := now, balances := b)) else Err(NotAuthorized)
  }

  function Post<V>(r: Result<(State, V)>): Result<State> {
    if r.Ok? then Ok(r.value.0) else Err(r.error)
  }

  ghost function Apply(s: State, op: Op): State {
    if Step(s, op).Ok? then Step(s, op).value else s
  }

  ghost function Run(s: State, ops: seq<Op>): State
    decreases |ops|
  {
    if ops == [] then s else Run(Apply(s, ops[0]), ops[1..])
  }

  ghost predicate Fresh(s: State) {
    && Solvent(s.balances)
    && s.bounties == map[] && s.subs == map[] && s.index == map[]
    && s.bountyCount == 0 && s.subCount == 0 && s.journal == []
  }
}
