/** What the governance contract keeps on every run, and what its promises come
    down to: an execution is earned, happens once, and survives a late cancel. */
module GovernanceProofs {
  import opened Base
  import opened GovernanceModel

  // ---- Reading the history ----

  /** The accounts that voted for `id`, in order. */
  function VotesFor(j: seq<Event>, id: u32): seq<Address> {
    if j == [] then []
    else
      var e := j[|j| - 1];
      VotesFor(j[..|j| - 1], id) + if e.VoteCast? && e.id == id then [e.voter] else []
  }

  /** The vote that first brought `id` to the threshold then in force. */
  function QuorumAt(j: seq<Event>, id: u32): Option<nat> {
    if j == [] then None
    else
      var e, before := j[|j| - 1], QuorumAt(j[..|j| - 1], id);
      if before.Some? then before
      else if e.VoteCast? && e.id == id && |VotesFor(j, id)| >= e.threshold then Some(|j| - 1)
      else None
  }

  function Executions(j: seq<Event>, id: u32): nat {
    if j == [] then 0
    else
      var e := j[|j| - 1];
      Executions(j[..|j| - 1], id) + if e.Performed? && e.id == id then 1 else 0
  }

  lemma {:induction false} QuorumMeans(j: seq<Event>, id: u32)
    ensures var q := QuorumAt(j, id);
            && (q.Some? ==>
                  && q.value < |j| && j[q.value].VoteCast? && j[q.value].id == id
                  && |VotesFor(j[..q.value + 1], id)| >= j[q.value].threshold)
            && forall k | 0 <= k < (if q.Some? then q.value else |j|) ::
                 j[k].VoteCast? && j[k].id == id ==> |VotesFor(j[..k + 1], id)| < j[k].threshold
  {
    if j != [] {
      var before := j[..|j| - 1];
      QuorumMeans(before, id);
      assert j[..|j|] == j;
      assert forall k {:trigger j[..k + 1]} | 0 <= k < |before| :: before[..k + 1] == j[..k + 1];
    }
  }

  // ---- The invariant ----

  ghost predicate Proper(owners: seq<Address>, threshold: u32) {
    Distinct(owners) && 1 <= threshold <= |owners|
  }

  ghost predicate Configured(s: State) {
    if s.initialized then Proper(s.owners, s.threshold) && s.timelock < s.ttl && 1 <= s.nextId
    else s.proposals == map[] && s.journal == []
  }

  /** A proposal's ballot agrees with the history of votes. */
  ghost predicate BallotAgrees(approvals: map<u32, seq<Address>>, ballots: set<Ballot>, j: seq<Event>, id: u32) {
    && id in approvals && approvals[id] == VotesFor(j, id) && Distinct(approvals[id])
    && forall a {:trigger Ballot(id, a)} :: Ballot(id, a) in ballots <==> a in approvals[id]
  }

  ghost predicate BallotsAgree(s: State) {
    && (forall id | id in s.proposals :: 0 <= id < s.nextId && s.proposals[id].created <= s.now)
    && (forall id | id in s.proposals :: BallotAgrees(s.approvals, s.ballots, s.journal, id))
    && (forall b | b in s.ballots :: b.id in s.proposals)
    && (forall k | 0 <= k < |s.journal| :: s.journal[k].id in s.proposals && s.journal[k].ledger <= s.now)
  }

  /** What the history says a proposal's record must be. */
  ghost predicate RecordAgrees(p: Proposal, j: seq<Event>, id: u32) {
    var q := QuorumAt(j, id);
    && (q.Some? ==> q.value < |j| && j[q.value].VoteCast?)
    && p.approved == (if q.Some? then Some(j[q.value].ledger) else None)
    && (q.Some? ==> j[q.value].ledger + j[q.value].timelock <= U32_MAX)
    && p.eta == (if q.Some? then Some(j[q.value].ledger + j[q.value].timelock) else None)
    && p.status != Status.Expired
    && (p.status == Pending ==> q.None?) && (p.status == Approved ==> q.Some?)
    && (p.status == Executed <==> p.executed.Some?)
    && Executions(j, id) == (if p.status == Executed then 1 else 0)
  }

  ghost predicate RecordsAgree(s: State) {
    forall id | id in s.proposals :: RecordAgrees(s.proposals[id], s.journal, id)
  }

  ghost predicate VoteIsLawful(e: Event)
    requires e.VoteCast?
  {
    e.voter in e.owners && Proper(e.owners, e.threshold)
  }

  /** An execution came after quorum, its timelock and within its time to live. */
  ghost predicate Earned(j: seq<Event>, e: Event, created: u32)
    requires e.Performed?
  {
    var q := QuorumAt(j, e.id);
    && q.Some? && q.value < |j| && j[q.value].VoteCast?
    && 1 <= e.threshold <= |VotesFor(j, e.id)|
    && j[q.value].ledger + j[q.value].timelock <= e.ledger <= created + e.ttl
  }

  ghost predicate HistoryIsLawful(s: State) {
    && (forall k | 0 <= k < |s.journal| :: s.journal[k].VoteCast? ==> VoteIsLawful(s.journal[k]))
    && (forall k | 0 <= k < |s.journal| :: s.journal[k].Performed? ==>
          s.journal[k].id in s.proposals && Earned(s.journal[..k], s.journal[k], s.proposals[s.journal[k].id].created))
  }

  ghost predicate Inv(s: State) {
    Configured(s) && BallotsAgree(s) && RecordsAgree(s) && HistoryIsLawful(s)
  }

  // ---- One event more ----

  lemma Appended(j: seq<Event>, e: Event)
    ensures forall id {:trigger VotesFor(j + [e], id)} ::
              VotesFor(j + [e], id) == VotesFor(j, id) + if e.VoteCast? && e.id == id then [e.voter] else []
    ensures forall id {:trigger QuorumAt(j + [e], id)} ::
              QuorumAt(j + [e], id) ==
              if QuorumAt(j, id).Some? then QuorumAt(j, id)
              else if e.VoteCast? && e.id == id && |VotesFor(j + [e], id)| >= e.threshold then Some(|j|)
              else None
    ensures forall id {:trigger Executions(j + [e], id)} ::
              Executions(j + [e], id) == Executions(j, id) + if e.Performed? && e.id == id then 1 else 0
    ensures forall k {:trigger (j + [e])[..k]} | 0 <= k <= |j| :: (j + [e])[..k] == j[..k]
  {
    assert (j + [e])[..|j|] == j;
  }

  lemma {:induction false} Unseen(j: seq<Event>, id: u32)
    requires forall k | 0 <= k < |j| :: j[k].id != id
    ensures VotesFor(j, id) == [] && QuorumAt(j, id).None? && Executions(j, id) == 0
  {
    if j != [] {
      Unseen(j[..|j| - 1], id);
    }
  }

  lemma LawfulGrows(s: State, s': State, e: Event)
    requires HistoryIsLawful(s) && s'.journal == s.journal + [e]
    requires forall id | id in s.proposals :: id in s'.proposals && s'.proposals[id].created == s.proposals[id].created
    requires if e.VoteCast? then VoteIsLawful(e)
             else e.id in s'.proposals && Earned(s.journal, e, s'.proposals[e.id].created)
    ensures HistoryIsLawful(s')
  {
    hide VoteIsLawful, Earned;
    Appended(s.journal, e);
    assert s.journal[..|s.journal|] == s.journal;
    forall k | 0 <= k < |s'.journal| && s'.journal[k].Performed?
      ensures s'.journal[k].id in s'.proposals
      ensures Earned(s'.journal[..k], s'.journal[k], s'.proposals[s'.journal[k].id].created)
    {
      assert s'.journal[..k] == s.journal[..k];
    }
  }

  // ---- Every transaction keeps it ----

  lemma InitializeKeeps(s: State, owners: seq<Address>, threshold: u32, timelock: u32, ttl: u32)
    requires Inv(s) && Initialize(s, owners, threshold, timelock, ttl).Ok?
    ensures Inv(Initialize(s, owners, threshold, timelock, ttl).value.0)
  {}

  lemma DistinctGrows(v: seq<Address>, a: Address)
    requires Distinct(v) && a !in v
    ensures Distinct(v + [a])
  {}

  /** A vote lengthens one ballot and nothing else. */
  lemma BallotsGrow(s: State, s': State, id: u32, voter: Address)
    requires BallotsAgree(s) && id < s'.nextId && s.nextId <= s'.nextId && s'.now == s.now
    requires s'.proposals.Keys == s.proposals.Keys + {id} && s'.proposals[id].created <= s.now
    requires forall x | x in s.proposals :: s'.proposals[x].created == s.proposals[x].created
    requires s'.approvals == s.approvals[id := VotesFor(s.journal, id) + [voter]]
    requires s'.ballots == s.ballots + {Ballot(id, voter)}
    requires s'.journal == s.journal + [VoteCast(id, voter, s.now, s.owners, s.threshold, s.timelock)]
    requires Ballot(id, voter) !in s.ballots && Distinct(VotesFor(s.journal, id)) && voter !in VotesFor(s.journal, id)
    requires forall a :: Ballot(id, a) in s.ballots <==> a in VotesFor(s.journal, id)
    ensures BallotsAgree(s')
  {
    hide VotesFor, Distinct;
    DistinctGrows(VotesFor(s.journal, id), voter);
    Appended(s.journal, VoteCast(id, voter, s.now, s.owners, s.threshold, s.timelock));
    forall x | x in s'.proposals
      ensures BallotAgrees(s'.approvals, s'.ballots, s'.journal, x)
    {
      if x != id {
        assert BallotAgrees(s.approvals, s.ballots, s.journal, x);
      }
    }
    hide BallotAgrees;
  }

  /** One event about `id` touches no other proposal's record. */
  lemma RecordsGrow(s: State, s': State, p: Proposal, e: Event)
    requires RecordsAgree(s) && s'.proposals == s.proposals[e.id := p] && s'.journal == s.journal + [e]
    requires RecordAgrees(p, s'.journal, e.id)
    ensures RecordsAgree(s')
  {
    hide VotesFor, Executions, QuorumAt;
    Appended(s.journal, e);
    forall x | x in s.proposals && x != e.id
      ensures RecordAgrees(s.proposals[x], s'.journal, x)
    {
      assert RecordAgrees(s.proposals[x], s.journal, x);
    }
  }

  lemma ProposeKeeps(s: State, proposer: Address, target: Address, action: Action)
    requires Inv(s) && Propose(s, proposer, target, action).Ok?
    ensures Inv(Propose(s, proposer, target, action).value.0)
  {
    hide RecordsAgree, HistoryIsLawful, VotesFor, QuorumAt, Executions;
    var s' := Propose(s, proposer, target, action).value.0;
    var id := s.nextId;
    var e := VoteCast(id, proposer, s.now, s.owners, s.threshold, s.timelock);
    Unseen(s.journal, id);
    assert [] + [proposer] == [proposer];
    BallotsGrow(s, s', id, proposer);
    hide BallotsAgree;
    Appended(s.journal, e);
    RecordsGrow(s, s', s'.proposals[id], e);
    LawfulGrows(s, s', e);
  }

  lemma ApproveDoes(s: State, owner: Address, id: u32)
    requires Approve(s, owner, id).Ok?
    ensures var s' := Approve(s, owner, id).value.0;
            && s.initialized && owner in s.owners && id in s.proposals && Ballot(id, owner) !in s.ballots
            && (s.proposals[id].status == Pending || s.proposals[id].status == Approved)
            && var p := s.proposals[id];
               var quorum := |Approvals(s, id)| + 1 >= s.threshold && p.approved.None?;
               && (quorum ==> s.now + s.timelock <= U32_MAX)
               && s' == s.(
                    proposals := s.proposals[id :=
                      if quorum then p.(status := Approved, approved := Some(s.now), eta := Some(s.now + s.timelock)) else p],
                    approvals := s.approvals[id := Approvals(s, id) + [owner]],
                    ballots := s.ballots + {Ballot(id, owner)},
                    journal := s.journal + [VoteCast(id, owner, s.now, s.owners, s.threshold, s.timelock)])
  {}

  lemma ApproveKeeps(s: State, owner: Address, id: u32)
    requires Inv(s) && Approve(s, owner, id).Ok?
    ensures Inv(Approve(s, owner, id).value.0)
  {
    hide Approve, HistoryIsLawful, VotesFor, QuorumAt, Executions, RecordsAgree;
    ApproveDoes(s, owner, id);
    var s' := Approve(s, owner, id).value.0;
    var e := VoteCast(id, owner, s.now, s.owners, s.threshold, s.timelock);
    assert VotesFor(s.journal, id) == Approvals(s, id);
    BallotsGrow(s, s', id, owner);
    hide BallotsAgree;
    Appended(s.journal, e);
    RecordOf(s, id);
    RecordsGrow(s, s', s'.proposals[id], e);
    LawfulGrows(s, s', e);
  }

  lemma RecordOf(s: State, id: u32)
    requires RecordsAgree(s) && id in s.proposals
    ensures RecordAgrees(s.proposals[id], s.journal, id)
  {}

  /** Exactly when an execution goes through: whatever the status says, as long
      as it is not already `Executed`. */
  lemma ExecuteSucceedsIff(s: State, id: u32, accepts: bool)
    ensures Execute(s, id, accepts).Ok? <==>
            && s.initialized && id in s.proposals
            && var p := s.proposals[id];
               && p.status != Executed
               && s.now <= p.created + s.ttl <= U32_MAX
               && |Approvals(s, id)| >= s.threshold
               && p.eta.Some? && p.eta.value <= s.now
               && (if p.target == s.self then Allowed(s, p.action) else accepts)
  {}

  /** Which self-directed changes the current configuration admits. */
  predicate Allowed(s: State, action: Action) {
    match action
    case RotateOwners(owners, threshold) => Distinct(owners) && 1 <= threshold <= |owners|
    case SetTimelock(timelock) => timelock < s.ttl
    case SetProposalTtl(ttl) => s.timelock < ttl
    case Malformed => false
    case Unknown => false
  }

  lemma ExecuteDoes(s: State, id: u32, accepts: bool)
    requires Execute(s, id, accepts).Ok?
    ensures id in s.proposals
    ensures var s' := Execute(s, id, accepts).value.0;
            && s'.proposals == s.proposals[id := s.proposals[id].(status := Executed, executed := Some(s.now))]
            && s'.journal == s.journal + [Performed(id, s.now, s.threshold, s.ttl)]
            && s' == s.(proposals := s'.proposals, journal := s'.journal, owners := s'.owners,
                        threshold := s'.threshold, timelock := s'.timelock, ttl := s'.ttl)
            && (Configured(s) ==> Configured(s'))
  {}

  lemma ExecuteKeeps(s: State, id: u32, accepts: bool)
    requires Inv(s) && Execute(s, id, accepts).Ok?
    ensures Inv(Execute(s, id, accepts).value.0)
  {
    hide Execute, Configured, HistoryIsLawful, VotesFor, QuorumAt, Executions, RecordsAgree;
    ExecuteDoes(s, id, accepts);
    ExecuteSucceedsIff(s, id, accepts);
    ThresholdIsPositive(s);
    var s' := Execute(s, id, accepts).value.0;
    var e := Performed(id, s.now, s.threshold, s.ttl);
    Appended(s.journal, e);
    assert VotesFor(s.journal, id) == Approvals(s, id);
    assert BallotsAgree(s');
    hide BallotsAgree;
    RecordOf(s, id);
    RecordsGrow(s, s', s'.proposals[id], e);
    LawfulGrows(s, s', e);
  }

  lemma ThresholdIsPositive(s: State)
    requires Configured(s) && s.initialized
    ensures 1 <= s.threshold
  {}

  lemma ConfiguredBy(s: State, s': State)
    requires Configured(s) && s'.initialized == s.initialized == true && s'.nextId == s.nextId
    requires s'.owners == s.owners && s'.threshold == s.threshold && s'.timelock == s.timelock && s'.ttl == s.ttl
    ensures Configured(s')
  {}

  lemma CancelDoes(s: State, caller: Address, id: u32)
    requires Cancel(s, caller, id).Ok?
    ensures s.initialized && id in s.proposals && s.proposals[id].status != Executed
    ensures Cancel(s, caller, id).value.0 == s.(proposals := s.proposals[id := s.proposals[id].(status := Cancelled)])
  {}

  /** Rewriting one record, the history standing still. */
  lemma RecordsStand(s: State, s': State, id: u32, p: Proposal)
    requires RecordsAgree(s) && s'.proposals == s.proposals[id := p] && s'.journal == s.journal
    requires RecordAgrees(p, s.journal, id)
    ensures RecordsAgree(s')
  {
    hide RecordAgrees;
  }

  lemma HistoryStands(s: State, s': State)
    requires HistoryIsLawful(s) && s'.journal == s.journal
    requires forall id | id in s.proposals :: id in s'.proposals && s'.proposals[id].created == s.proposals[id].created
    ensures HistoryIsLawful(s')
  {
    hide Earned, VoteIsLawful;
  }

  lemma CancelKeeps(s: State, caller: Address, id: u32)
    requires Inv(s) && Cancel(s, caller, id).Ok?
    ensures Inv(Cancel(s, caller, id).value.0)
  {
    hide Cancel, Configured, BallotAgrees, QuorumAt, RecordsAgree, HistoryIsLawful;
    CancelDoes(s, caller, id);
    var s' := Cancel(s, caller, id).value.0;
    ConfiguredBy(s, s');
    RecordOf(s, id);
    RecordsStand(s, s', id, s'.proposals[id]);
    HistoryStands(s, s');
  }

  lemma StepKeeps(s: State, op: Op)
    requires Inv(s)
    ensures Inv(Apply(s, op))
  {
    if Step(s, op).Ok? {
      match op
      case OpInitialize(o, k, d, t) => InitializeKeeps(s, o, k, d, t);
      case OpPropose(p, t, a) => ProposeKeeps(s, p, t, a);
      case OpApprove(o, id) => ApproveKeeps(s, o, id);
      case OpExecute(id, accepts) => ExecuteKeeps(s, id, accepts);
      case OpCancel(c, id) => CancelKeeps(s, c, id);
      case OpDirect(_) =>
      case OpPass(_) =>
    }
  }

  lemma {:induction false} RunKeeps(s: State, ops: seq<Op>)
    requires Inv(s)
    ensures Inv(Run(s, ops))
    decreases |ops|
  {
    if ops != [] {
      StepKeeps(s, ops[0]);
      RunKeeps(Apply(s, ops[0]), ops[1..]);
    }
  }
}
