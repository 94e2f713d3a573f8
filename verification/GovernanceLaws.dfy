/** What the owners can still bring about: which proposals some run executes, and
    when no run executes anything any more. */
module GovernanceLaws {
  import opened Base
  import opened GovernanceModel
  import opened GovernanceProofs
  import opened GovernanceTheorems

  // ---- Runs put together ----

  ghost predicate Reaches(s: State, t: State) {
    exists ops :: Run(s, ops) == t
  }

  lemma {:induction false} RunConcat(s: State, a: seq<Op>, b: seq<Op>)
    ensures Run(s, a + b) == Run(Run(s, a), b)
    decreases |a|
  {
    hide Apply;
    if a == [] {
      assert a + b == b;
    } else {
      assert (a + b)[1..] == a[1..] + b;
      RunConcat(Apply(s, a[0]), a[1..], b);
    }
  }

  lemma ReachesItself(s: State)
    ensures Reaches(s, s)
  {
    assert Run(s, []) == s;
  }

  /** One transaction more. */
  lemma ReachesNext(s: State, t: State, op: Op)
    requires Reaches(s, t)
    ensures Reaches(s, Apply(t, op))
  {
    hide Apply;
    var ops :| Run(s, ops) == t;
    RunConcat(s, ops, [op]);
    assert [op][1..] == [];
    assert Run(Apply(t, op), []) == Apply(t, op);
    assert Run(t, [op]) == Apply(t, op);
    assert Run(s, ops + [op]) == Apply(t, op);
  }

  lemma ReachesOn(s: State, t: State, u: State)
    requires Reaches(s, t) && Reaches(t, u)
    ensures Reaches(s, u)
  {
    var a :| Run(s, a) == t;
    var b :| Run(t, b) == u;
    RunConcat(s, a, b);
  }

  lemma ReachedIsFine(s: State, t: State)
    requires Inv(s) && Reaches(s, t)
    ensures Inv(t)
  {
    var ops :| Run(s, ops) == t;
    RunKeeps(s, ops);
  }

  // ---- Voting ----

  /** A proposal that can take votes at this ledger. */
  predicate Votable(s: State, id: u32) {
    && s.initialized && id in s.proposals && id in s.approvals
    && var p := s.proposals[id];
       && (p.status == Pending || p.status == Approved) && (p.approved.Some? <==> p.eta.Some?)
       && s.now <= p.created + s.ttl <= U32_MAX
       && (p.eta.None? ==> s.now + s.timelock <= U32_MAX)
  }

  /** What `n` votes cast now make of the quorum. */
  function EtaAfter(s: State, id: u32, n: nat): Option<int>
    requires id in s.proposals
  {
    if s.proposals[id].eta.Some? then Some(s.proposals[id].eta.value)
    else if n > 0 && |Approvals(s, id)| + n >= s.threshold then Some(s.now + s.timelock)
    else None
  }

  function Eta(p: Proposal): Option<int> {
    if p.eta.Some? then Some(p.eta.value) else None
  }

  /** Nothing but this proposal's votes has changed. */
  ghost predicate OnlyVotes(s: State, t: State, id: u32) {
    && id in s.proposals && id in t.proposals
    && t == s.(proposals := t.proposals, approvals := t.approvals, ballots := t.ballots, journal := t.journal)
    && t.proposals == s.proposals[id := t.proposals[id]]
    && t.proposals[id] == s.proposals[id].(status := t.proposals[id].status, approved := t.proposals[id].approved,
                                           eta := t.proposals[id].eta)
    && t.approvals == s.approvals[id := Approvals(t, id)]
    && forall b: Ballot | b.id != id :: b in t.ballots <==> b in s.ballots
  }

  lemma CastVote(s: State, id: u32, voter: Address)
    requires Votable(s, id) && voter in s.owners && Ballot(id, voter) !in s.ballots
    ensures var t := Apply(s, OpApprove(voter, id));
            && OnlyVotes(s, t, id) && Votable(t, id)
            && Approvals(t, id) == Approvals(s, id) + [voter]
            && t.ballots == s.ballots + {Ballot(id, voter)}
            && Eta(t.proposals[id]) == EtaAfter(s, id, 1)
  {
    assert Approve(s, voter, id).Ok?;
    ApproveDoes(s, voter, id);
  }

  /** Any distinct owners who have not voted can all vote at one ledger. */
  lemma {:induction false} CollectVotes(s: State, id: u32, voters: seq<Address>) returns (t: State)
    requires Votable(s, id) && Distinct(voters)
    requires forall a | a in voters :: a in s.owners && Ballot(id, a) !in s.ballots
    ensures Reaches(s, t) && OnlyVotes(s, t, id) && Votable(t, id)
    ensures |Approvals(t, id)| == |Approvals(s, id)| + |voters|
    ensures Eta(t.proposals[id]) == EtaAfter(s, id, |voters|)
    decreases |voters|
  {
    hide Apply, Reaches;
    ReachesItself(s);
    if voters == [] {
      t := s;
      assert s.proposals == s.proposals[id := s.proposals[id]] && s.approvals == s.approvals[id := s.approvals[id]];
    } else {
      CastVote(s, id, voters[0]);
      var next := Apply(s, OpApprove(voters[0], id));
      ReachesNext(s, s, OpApprove(voters[0], id));
      forall a | a in voters[1..]
        ensures a in next.owners && Ballot(id, a) !in next.ballots
      {
        assert a != voters[0];
      }
      t := CollectVotes(next, id, voters[1..]);
      ReachesOn(s, next, t);
    }
  }

  // ---- Passing a law ----

  /** The owners can still propose, and what they propose now can be executed. */
  predicate Live(s: State) {
    s.initialized && s.nextId < U32_MAX && s.now + s.ttl <= U32_MAX
  }

  function RulesOf(s: State): (seq<Address>, u32, u32, u32) {
    (s.owners, s.threshold, s.timelock, s.ttl)
  }

  function RulesAfter(s: State, action: Action): (seq<Address>, u32, u32, u32) {
    match action
    case RotateOwners(owners, threshold) => (owners, threshold, s.timelock, s.ttl)
    case SetTimelock(timelock) => (s.owners, s.threshold, timelock, s.ttl)
    case SetProposalTtl(ttl) => (s.owners, s.threshold, s.timelock, ttl)
    case _ => RulesOf(s)
  }

  /** Everything decided before is as it was; the next proposal is executed. */
  ghost predicate SameDocket(s: State, t: State) {
    && t.self == s.self && t.initialized == s.initialized && t.nextId == s.nextId + 1
    && t.proposals.Keys == s.proposals.Keys + {s.nextId}
    && (forall id | id in s.proposals :: t.proposals[id] == s.proposals[id] && Approvals(t, id) == Approvals(s, id))
    && (forall b: Ballot | b.id != s.nextId :: b in t.ballots <==> b in s.ballots)
    && t.proposals[s.nextId].status == Executed
  }

  lemma NextIsNew(s: State)
    requires Inv(s)
    ensures s.nextId !in s.proposals && forall a {:trigger Ballot(s.nextId, a)} :: Ballot(s.nextId, a) !in s.ballots
    ensures forall b | b in s.ballots :: b.id in s.proposals
  {}

  lemma RulesAreProper(s: State)
    requires Inv(s) && s.initialized
    ensures Distinct(s.owners) && 1 <= s.threshold <= |s.owners| && s.timelock < s.ttl && 1 <= s.nextId
  {}

  lemma ProposeDoes(s: State, proposer: Address, target: Address, action: Action)
    requires Live(s) && proposer in s.owners && s.timelock < s.ttl && 1 <= s.threshold
    ensures var t, id := Apply(s, OpPropose(proposer, target, action)), s.nextId;
            && id in t.proposals
            && t == s.(nextId := id + 1, proposals := s.proposals[id := t.proposals[id]], approvals := s.approvals[id := [proposer]],
                       ballots := s.ballots + {Ballot(id, proposer)}, journal := t.journal)
            && var p := t.proposals[id];
               && p.target == target && p.action == action && p.created == s.now
               && (p.status == Pending || p.status == Approved) && (p.approved.Some? <==> p.eta.Some?)
               && Eta(p) == if s.threshold == 1 then Some(s.now + s.timelock) else None
  {
    assert Propose(s, proposer, target, action).Ok?;
  }

  /** Proposed and voted through at one ledger. */
  lemma Adopt(s: State, action: Action) returns (t: State)
    requires Inv(s) && Live(s)
    ensures Reaches(s, t) && t.now == s.now && RulesOf(t) == RulesOf(s)
    ensures t.self == s.self && t.initialized && t.nextId == s.nextId + 1
    ensures t.proposals.Keys == s.proposals.Keys + {s.nextId}
    ensures forall id | id in s.proposals :: t.proposals[id] == s.proposals[id] && Approvals(t, id) == Approvals(s, id)
    ensures forall b: Ballot | b.id != s.nextId :: b in t.ballots <==> b in s.ballots
    ensures var p := t.proposals[s.nextId];
            && p.target == s.self && p.action == action && p.created == s.now
            && (p.status == Pending || p.status == Approved) && Eta(p) == Some(s.now + s.timelock)
            && |Approvals(t, s.nextId)| >= s.threshold
  {
    hide Reaches, Inv;
    NextIsNew(s);
    RulesAreProper(s);
    var id, first := s.nextId, s.owners[0];
    ProposeDoes(s, first, s.self, action);
    var proposed := Apply(s, OpPropose(first, s.self, action));
    hide Apply;
    ReachesItself(s);
    ReachesNext(s, s, OpPropose(first, s.self, action));
    var voters := s.owners[1..s.threshold];
    assert forall a | a in voters :: a in s.owners && a != first;
    t := CollectVotes(proposed, id, voters);
    ReachesOn(s, proposed, t);
  }

  /** A live set of owners can carry through any change of the rules that its
      rules admit, within one timelock. */
  lemma Legislate(s: State, action: Action) returns (t: State)
    requires Inv(s) && Live(s) && Allowed(s, action)
    ensures Reaches(s, t) && Inv(t) && t.now == s.now + s.timelock && SameDocket(s, t)
    ensures RulesOf(t) == RulesAfter(s, action)
  {
    hide Reaches, Inv;
    RulesAreProper(s);
    NextIsNew(s);
    var id := s.nextId;
    var adopted := Adopt(s, action);
    var due := s.now + s.timelock;
    var waited := Apply(adopted, OpPass(due));
    ReachesNext(s, adopted, OpPass(due));
    ExecuteSucceedsIff(waited, id, true);
    assert Allowed(waited, action);
    t := Apply(waited, OpExecute(id, true));
    ReachesNext(s, waited, OpExecute(id, true));
    ReachedIsFine(s, t);
    LawTakesEffect(waited, id);
  }

  lemma LawTakesEffect(s: State, id: u32)
    requires id in s.proposals && s.proposals[id].target == s.self && Execute(s, id, true).Ok?
    ensures var t, p := Apply(s, OpExecute(id, true)), s.proposals[id];
            && t.proposals == s.proposals[id := p.(status := Executed, executed := Some(s.now))]
            && t.approvals == s.approvals && t.ballots == s.ballots
            && t.self == s.self && t.initialized == s.initialized && t.nextId == s.nextId && t.now == s.now
            && RulesOf(t) == RulesAfter(s, p.action)
  {}

  // ---- Which proposals some run still executes ----

  ghost predicate ExecutedIn(s: State, id: u32) {
    id in s.proposals && s.proposals[id].status == Executed
  }

  /** Some configuration admits the action, at a ledger the deadline allows. */
  predicate Possible(self: Address, p: Proposal) {
    p.target != self ||
    match p.action
    case RotateOwners(owners, threshold) => Distinct(owners) && 1 <= threshold <= |owners|
    case SetTimelock(timelock) => timelock < U32_MAX - p.created
    case SetProposalTtl(ttl) => 0 < ttl
    case Malformed => false
    case Unknown => false
  }

  /** Ruled out for good: an impossible action, or a cancellation before quorum. */
  ghost predicate RuledOut(s: State, id: u32)
    requires id in s.proposals
  {
    var p := s.proposals[id];
    !Possible(s.self, p) || (p.status == Cancelled && p.eta.None?)
  }

  lemma RuledOutStays(s: State, id: u32, op: Op)
    requires Inv(s) && id in s.proposals && !ExecutedIn(s, id) && RuledOut(s, id)
    ensures var t := Apply(s, op);
            t.self == s.self && id in t.proposals && !ExecutedIn(t, id) && RuledOut(t, id)
  {
    hide Approve, Execute, Cancel, Internal, HistoryIsLawful, RecordsAgree, BallotAgrees, Configured;
    NextIsNew(s);
    if Step(s, op).Ok? {
      match op
      case OpApprove(o, x) => ApproveDoes(s, o, x);
      case OpExecute(x, accepts) => ExecuteDoes(s, x, accepts); ExecuteSucceedsIff(s, x, accepts);
      case OpCancel(c, x) => CancelDoes(s, c, x);
      case _ =>
    }
  }

  lemma {:induction false} RuledOutForGood(s: State, id: u32, ops: seq<Op>)
    requires Inv(s) && id in s.proposals && !ExecutedIn(s, id) && RuledOut(s, id)
    ensures !ExecutedIn(Run(s, ops), id)
    decreases |ops|
  {
    if ops != [] {
      hide Inv, Apply, RuledOut;
      StepKeeps(s, ops[0]);
      RuledOutStays(s, id, ops[0]);
      RuledOutForGood(Apply(s, ops[0]), id, ops[1..]);
    }
  }

  /** Room for one timelock and three more proposals before the ledgers or the
      numbers run out. */
  predicate Roomy(s: State) {
    s.initialized && s.nextId + 3 <= U32_MAX && s.now + s.timelock + s.ttl <= U32_MAX
  }

  lemma {:induction false} AnOutsider(v: seq<Address>) returns (a: Address)
    ensures forall i | 0 <= i < |v| :: v[i] < a
  {
    a := 0;
    if v != [] {
      var b := AnOutsider(v[..|v| - 1]);
      a := if v[|v| - 1] < b then b else v[|v| - 1] + 1;
    }
  }

  /** Three laws make room for any stored proposal: no timelock, one new owner,
      and a deadline at the last ledger there is. */
  lemma MakeRoom(s: State, id: u32, owner: Address) returns (t: State)
    requires Inv(s) && Roomy(s) && id in s.proposals
    ensures Reaches(s, t) && Inv(t) && t.self == s.self && t.initialized && t.now == s.now + s.timelock
    ensures s.proposals[id].created < U32_MAX && RulesOf(t) == ([owner], 1, 0, U32_MAX - s.proposals[id].created)
    ensures id in t.proposals && t.proposals[id] == s.proposals[id] && Approvals(t, id) == Approvals(s, id)
    ensures forall a {:trigger Ballot(id, a)} :: Ballot(id, a) in t.ballots <==> Ballot(id, a) in s.ballots
  {
    hide Inv, Reaches;
    RulesAreProper(s);
    CreatedBefore(s, id);
    var first := Legislate(s, SetTimelock(0));
    NextIsNew(s);
    var second := Legislate(first, RotateOwners([owner], 1));
    NextIsNew(first);
    t := Legislate(second, SetProposalTtl(U32_MAX - s.proposals[id].created));
    NextIsNew(second);
    ReachesOn(s, first, second);
    ReachesOn(s, second, t);
  }

  lemma CreatedBefore(s: State, id: u32)
    requires Inv(s) && id in s.proposals
    ensures s.initialized && s.proposals[id].created <= s.now && id < s.nextId
  {}

  /** What the record says of votes and quorum. */
  lemma QuorumFacts(s: State, id: u32)
    requires Inv(s) && id in s.proposals
    ensures var p := s.proposals[id];
            && id in s.approvals && p.status != Status.Expired
            && (p.approved.Some? <==> p.eta.Some?)
            && (p.status == Pending ==> p.eta.None?) && (p.status == Approved ==> p.eta.Some?)
            && (p.eta.Some? ==> 1 <= |Approvals(s, id)|)
            && forall a {:trigger Ballot(id, a)} :: Ballot(id, a) in s.ballots <==> a in Approvals(s, id)
  {
    hide VotesFor, QuorumAt, Executions, Configured, HistoryIsLawful;
    BallotOf(s, id);
    RecordOf(s, id);
    if s.proposals[id].eta.Some? {
      SomebodyVoted(s, id);
    }
  }

  lemma BallotOf(s: State, id: u32)
    requires BallotsAgree(s) && id in s.proposals
    ensures BallotAgrees(s.approvals, s.ballots, s.journal, id)
  {
    hide BallotAgrees;
  }

  lemma SomebodyVoted(s: State, id: u32)
    requires Inv(s) && id in s.proposals && QuorumAt(s.journal, id).Some?
    ensures 1 <= |VotesFor(s.journal, id)|
  {
    hide VotesFor, QuorumAt, Configured, BallotsAgree, RecordsAgree, Earned;
    QuorumMeans(s.journal, id);
    var q := QuorumAt(s.journal, id).value;
    assert VoteIsLawful(s.journal[q]);
    VotesPrefix(s.journal, id, q + 1);
  }

  /** With room to legislate, the owners can bring any proposal that is not ruled
      out to execution. */
  lemma BringAbout(s: State, id: u32)
    requires Inv(s) && Roomy(s) && id in s.proposals && !ExecutedIn(s, id) && !RuledOut(s, id)
    ensures exists ops :: ExecutedIn(Run(s, ops), id)
  {
    hide Inv, Reaches, Apply;
    var p := s.proposals[id];
    QuorumFacts(s, id);
    var owner := AnOutsider(Approvals(s, id));
    assert owner !in Approvals(s, id);
    var t := MakeRoom(s, id, owner);
    var u := t;
    if p.eta.None? {
      QuorumFacts(t, id);
      CastVote(t, id, owner);
      u := Apply(t, OpApprove(owner, id));
      ReachesNext(s, t, OpApprove(owner, id));
    }
    FinishIt(u, id);
    var ready := Max(u.now, u.proposals[id].eta.value);
    ReachesNext(s, u, OpPass(ready));
    ReachesNext(s, Apply(u, OpPass(ready)), OpExecute(id, true));
    Witness(s, Apply(Apply(u, OpPass(ready)), OpExecute(id, true)), id);
  }

  lemma Witness(s: State, t: State, id: u32)
    requires Reaches(s, t) && ExecutedIn(t, id)
    ensures exists ops :: ExecutedIn(Run(s, ops), id)
  {
    var ops :| Run(s, ops) == t;
    assert ExecutedIn(Run(s, ops), id);
  }

  /** The end of the road: one owner, no timelock, the last possible deadline. */
  lemma FinishIt(u: State, id: u32)
    requires u.initialized && id in u.proposals && !ExecutedIn(u, id) && u.proposals[id].eta.Some?
    requires u.threshold == 1 <= |Approvals(u, id)| && u.timelock == 0 && Possible(u.self, u.proposals[id])
    requires u.proposals[id].created < U32_MAX && u.ttl == U32_MAX - u.proposals[id].created
    ensures var ready: u32 := Max(u.now, u.proposals[id].eta.value);
            ExecutedIn(Apply(Apply(u, OpPass(ready)), OpExecute(id, true)), id)
  {
    hide Execute;
    var ready: u32 := Max(u.now, u.proposals[id].eta.value);
    var waited := Apply(u, OpPass(ready));
    ExecuteSucceedsIff(waited, id, true);
    ExecuteDoes(waited, id, true);
  }

  /** Whatever its status, expired and cancelled included, a proposal is executed
      on some further run exactly when it is not ruled out. */
  lemma ExecutedOnSomeRunIff(s: State, id: u32)
    requires Inv(s) && Roomy(s) && id in s.proposals && !ExecutedIn(s, id)
    ensures (exists ops :: ExecutedIn(Run(s, ops), id)) <==> !RuledOut(s, id)
  {
    hide Inv, Run, RuledOut, ExecutedIn;
    if RuledOut(s, id) {
      forall ops
        ensures !ExecutedIn(Run(s, ops), id)
      {
        RuledOutForGood(s, id, ops);
      }
    } else {
      BringAbout(s, id);
    }
  }

  /** A cancel is final exactly when it came before quorum or the action could
      not be performed anyway. */
  lemma CancelIsFinalIff(s: State, caller: Address, id: u32)
    requires Inv(s) && Roomy(s) && Cancel(s, caller, id).Ok?
    ensures id in s.proposals
    ensures var p, t := s.proposals[id], Cancel(s, caller, id).value.0;
            (forall ops :: !ExecutedIn(Run(t, ops), id)) <==> p.eta.None? || !Possible(s.self, p)
  {
    hide Inv, Run, Cancel;
    CancelDoes(s, caller, id);
    CancelKeeps(s, caller, id);
    ExecutedOnSomeRunIff(Cancel(s, caller, id).value.0, id);
  }

  /** Expiry is final exactly when the action could not be performed anyway: an
      expired proposal that could be is executed on some further run. */
  lemma ExpiryIsFinalIff(s: State, id: u32)
    requires Inv(s) && Roomy(s) && id in s.proposals && GetProposal(s, id).Ok? && GetProposal(s, id).value.status == Status.Expired
    ensures (forall ops :: !ExecutedIn(Run(s, ops), id)) <==> !Possible(s.self, s.proposals[id])
  {
    hide Inv, Run, Possible;
    QuorumFacts(s, id);
    ExecutedOnSomeRunIff(s, id);
  }

  // ---- Which runs execute a cancelled proposal ----

  /** What an execution finds at its own ledger, under the rules then in force. */
  predicate ReadyAt(p: Proposal, votes: nat, s: State, accepts: bool) {
    && p.eta.Some? && votes >= s.threshold
    && p.eta.value <= s.now <= p.created + s.ttl <= U32_MAX
    && (if p.target == s.self then Allowed(s, p.action) else accepts)
  }

  /** Some execution of `id` along the run finds it ready. */
  predicate MetReady(s: State, ops: seq<Op>, id: u32, p: Proposal, votes: nat)
    decreases |ops|
  {
    && ops != []
    && ((ops[0].OpExecute? && ops[0].id == id && ReadyAt(p, votes, s, ops[0].accepts))
        || MetReady(Apply(s, ops[0]), ops[1..], id, p, votes))
  }

  /** Exactly which runs execute a cancelled proposal: those with an execution that
      finds the quorum it once reached, its votes at the cancel enough for the
      threshold, and its deadline within the time to live, both as in force then. */
  lemma {:induction false} CancelledIsExecutedIff(s: State, id: u32, ops: seq<Op>)
    requires Inv(s) && id in s.proposals && s.proposals[id].status == Cancelled
    ensures ExecutedIn(Run(s, ops), id) <==> MetReady(s, ops, id, s.proposals[id], |Approvals(s, id)|)
    decreases |ops|
  {
    if ops != [] {
      hide Inv, Apply, Allowed;
      var op, next := ops[0], Apply(s, ops[0]);
      StepKeeps(s, op);
      CancelledStep(s, id, op);
      if ExecutedIn(next, id) {
        TargetsStay(next, ops[1..]);
      } else {
        CancelledIsExecutedIff(next, id, ops[1..]);
      }
    }
  }

  lemma CancelledStep(s: State, id: u32, op: Op)
    requires Inv(s) && id in s.proposals && s.proposals[id].status == Cancelled
    ensures var t, p := Apply(s, op), s.proposals[id];
            && id in t.proposals && Approvals(t, id) == Approvals(s, id)
            && (if op.OpExecute? && op.id == id && ReadyAt(p, |Approvals(s, id)|, s, op.accepts)
                then ExecutedIn(t, id) else t.proposals[id] == p)
  {
    hide Inv, Approve, Execute, Cancel, Allowed;
    NextIsNew(s);
    CreatedBefore(s, id);
    if op.OpExecute? {
      ExecuteSucceedsIff(s, op.id, op.accepts);
    }
    if Step(s, op).Ok? {
      match op
      case OpApprove(o, x) => ApproveDoes(s, o, x);
      case OpExecute(x, accepts) => ExecuteDoes(s, x, accepts);
      case OpCancel(c, x) => CancelDoes(s, c, x);
      case _ =>
    }
  }

  // ---- When nothing can be executed any more ----

  function Unvoted(s: State, id: u32): set<Address> {
    set a | a in s.owners && Ballot(id, a) !in s.ballots
  }

  /** A stored proposal that votes and waiting alone, under the present rules,
      bring to execution. */
  predicate InReach(s: State, id: u32)
    requires id in s.proposals
  {
    var p := s.proposals[id];
    var deadline, votes := p.created + s.ttl, |Approvals(s, id)|;
    && p.status != Executed && s.now <= deadline <= U32_MAX
    && (p.target == s.self ==> Allowed(s, p.action))
    && (if p.status == Cancelled then p.eta.Some? && p.eta.value <= deadline && votes >= s.threshold
        else if p.eta.Some? then p.eta.value <= deadline && votes + |Unvoted(s, id)| >= s.threshold
        else s.now + s.timelock <= deadline && Unvoted(s, id) != {} && votes + |Unvoted(s, id)| >= s.threshold)
  }

  /** Nothing new can be proposed in time, and nothing stored is in reach. */
  predicate Stalled(s: State) {
    && s.initialized && (s.nextId == U32_MAX || s.now + s.ttl > U32_MAX)
    && forall id | id in s.proposals :: !InReach(s, id)
  }

  /** An approval moves an owner from those who may vote to those who did. */
  lemma VoteMoves(s: State, owner: Address, id: u32)
    requires id in s.proposals && Approve(s, owner, id).Ok?
    ensures var t := Approve(s, owner, id).value.0;
            |Unvoted(t, id)| + 1 == |Unvoted(s, id)| && |Approvals(t, id)| == |Approvals(s, id)| + 1
  {
    ApproveDoes(s, owner, id);
    hide Approve;
    var t := Approve(s, owner, id).value.0;
    assert Unvoted(s, id) == Unvoted(t, id) + {owner};
  }

  /** No transaction but an execution brings a proposal into reach. */
  lemma ReachShrinks(s: State, op: Op, id: u32)
    requires Inv(s) && s.initialized && id in s.proposals && !op.OpExecute? && id in Apply(s, op).proposals
    ensures InReach(Apply(s, op), id) ==> InReach(s, id)
  {
    hide Inv, Approve, Cancel;
    NextIsNew(s);
    QuorumFacts(s, id);
    var t := Apply(s, op);
    if Step(s, op).Ok? {
      match op
      case OpApprove(o, x) =>
        ApproveDoes(s, o, x);
        if x == id {
          ApproveGuards(s, o, id);
          VoteMoves(s, o, id);
        } else {
          assert Unvoted(t, id) == Unvoted(s, id);
        }
      case OpCancel(c, x) =>
        CancelDoes(s, c, x);
        assert Unvoted(t, id) == Unvoted(s, id);
      case OpPropose(_, _, _) =>
        assert Unvoted(t, id) == Unvoted(s, id);
      case OpPass(_) =>
        assert Unvoted(t, id) == Unvoted(s, id);
      case _ =>
    }
  }

  lemma ApproveGuards(s: State, owner: Address, id: u32)
    requires Approve(s, owner, id).Ok?
    ensures id in s.proposals && s.now <= s.proposals[id].created + s.ttl <= U32_MAX
  {}

  lemma StalledStep(s: State, op: Op)
    requires Inv(s) && Stalled(s)
    ensures var t := Apply(s, op);
            Stalled(t) && SameRules(s, t) && forall id :: ExecutedIn(t, id) ==> ExecutedIn(s, id)
  {
    hide Inv, Approve, Execute, Cancel;
    NextIsNew(s);
    var t := Apply(s, op);
    if op.OpExecute? {
      ExecuteSucceedsIff(s, op.id, op.accepts);
    } else {
      if op.OpApprove? && Step(s, op).Ok? {
        ApproveDoes(s, op.owner, op.id);
      }
      if op.OpCancel? && Step(s, op).Ok? {
        CancelDoes(s, op.caller, op.id);
      }
      forall id | id in t.proposals
        ensures !InReach(t, id)
      {
        if id in s.proposals {
          ReachShrinks(s, op, id);
        }
      }
    }
  }

  lemma {:induction false} StalledForGood(s: State, ops: seq<Op>)
    requires Inv(s) && Stalled(s)
    ensures SameRules(s, Run(s, ops)) && forall id :: ExecutedIn(Run(s, ops), id) ==> ExecutedIn(s, id)
    decreases |ops|
  {
    if ops != [] {
      hide Inv, Apply, Stalled, ExecutedIn;
      StepKeeps(s, ops[0]);
      StalledStep(s, ops[0]);
      StalledForGood(Apply(s, ops[0]), ops[1..]);
    }
  }

  lemma {:induction false} Listed(v: set<Address>) returns (q: seq<Address>)
    ensures |q| == |v| && Distinct(q) && forall a :: a in q <==> a in v
  {
    q := [];
    if v != {} {
      var a :| a in v;
      var rest := Listed(v - {a});
      q := rest + [a];
    }
  }

  /** The remaining owners vote, where votes are still taken. */
  lemma GatherVotes(s: State, id: u32) returns (t: State)
    requires Inv(s) && s.initialized && id in s.proposals && InReach(s, id)
    ensures Reaches(s, t) && OnlyVotes(s, t, id) && t.proposals[id].status != Executed
    ensures |Approvals(t, id)| >= s.threshold
    ensures t.proposals[id].eta.Some? && t.proposals[id].eta.value <= s.proposals[id].created + s.ttl
  {
    hide Inv, Reaches, Allowed;
    QuorumFacts(s, id);
    ReachesItself(s);
    if s.proposals[id].status == Cancelled {
      t := s;
      assert s.proposals == s.proposals[id := s.proposals[id]] && s.approvals == s.approvals[id := s.approvals[id]];
    } else {
      var voters := Listed(Unvoted(s, id));
      t := CollectVotes(s, id, voters);
    }
  }

  /** What is in reach is executed on some run under the present rules. */
  lemma ReachIsReached(s: State, id: u32)
    requires Inv(s) && s.initialized && id in s.proposals && InReach(s, id)
    ensures exists ops :: ExecutedIn(Run(s, ops), id)
  {
    hide Inv, Reaches, Apply, InReach, Execute, Allowed;
    var t := GatherVotes(s, id);
    var p := s.proposals[id];
    InReachGuards(s, id);
    var due := Max(s.now, t.proposals[id].eta.value);
    ReachesNext(s, t, OpPass(due));
    var waited := Apply(t, OpPass(due));
    PassingOnly(t, due);
    ExecuteSucceedsIff(waited, id, true);
    SameRulesAllow(s, waited, p.action);
    ExecuteDoes(waited, id, true);
    ReachesNext(s, waited, OpExecute(id, true));
    ExecuteApplies(waited, id);
    Witness(s, Apply(waited, OpExecute(id, true)), id);
  }

  lemma InReachGuards(s: State, id: u32)
    requires id in s.proposals && InReach(s, id)
    ensures var p := s.proposals[id];
            s.now <= p.created + s.ttl <= U32_MAX && (p.target == s.self ==> Allowed(s, p.action))
  {
    hide Allowed;
  }

  lemma SameRulesAllow(s: State, t: State, action: Action)
    requires SameRules(s, t)
    ensures Allowed(t, action) == Allowed(s, action)
  {}

  lemma PassingOnly(s: State, now: u32)
    requires s.now <= now
    ensures Apply(s, OpPass(now)) == s.(now := now)
  {}

  lemma ExecuteApplies(s: State, id: u32)
    requires Execute(s, id, true).Ok?
    ensures Apply(s, OpExecute(id, true)) == Execute(s, id, true).value.0
  {}

  /** Some run executes something more exactly when the state is not stalled: a
      proposal made now would have a deadline, or a stored one is in reach. */
  lemma StallsIff(s: State)
    requires Inv(s) && s.initialized
    ensures (exists ops, id :: ExecutedIn(Run(s, ops), id) && !ExecutedIn(s, id)) <==> !Stalled(s)
  {
    hide Inv, Run, InReach;
    if Stalled(s) {
      hide Stalled, ExecutedIn;
      forall ops, id | ExecutedIn(Run(s, ops), id)
        ensures ExecutedIn(s, id)
      {
        StalledForGood(s, ops);
      }
    } else if Live(s) {
      RulesAreProper(s);
      var t := Legislate(s, SetTimelock(s.timelock));
      NextIsNew(s);
      Witness(s, t, s.nextId);
      var ops :| ExecutedIn(Run(s, ops), s.nextId);
      assert !ExecutedIn(s, s.nextId);
    } else {
      var id :| id in s.proposals && InReach(s, id);
      ReachIsReached(s, id);
      NotYet(s, id);
    }
  }

  lemma NotYet(s: State, id: u32)
    requires id in s.proposals && InReach(s, id)
    ensures !ExecutedIn(s, id)
  {}

  // ---- A time to live that stalls everything ----

  /** Deployed with a time to live that overflows the first deadline, the contract
      is accepted and never executes anything; otherwise some run does. */
  lemma InitialTtlStallsIff(self: Address, now: u32, owners: seq<Address>, threshold: u32, timelock: u32, ttl: u32)
    requires Initialize(Fresh(self, now), owners, threshold, timelock, ttl).Ok?
    ensures var s := Initialize(Fresh(self, now), owners, threshold, timelock, ttl).value.0;
            && (Frozen(s) <==> now + ttl > U32_MAX)
            && ((forall ops, id :: !ExecutedIn(Run(s, ops), id)) <==> now + ttl > U32_MAX)
  {
    var s := Initialize(Fresh(self, now), owners, threshold, timelock, ttl).value.0;
    assert Inv(s) by {
      InitializeKeeps(Fresh(self, now), owners, threshold, timelock, ttl);
    }
    assert s.proposals == map[] && s.nextId == 1;
    assert Stalled(s) <==> now + ttl > U32_MAX;
    assert forall id :: !ExecutedIn(s, id);
    hide Inv, Run, Stalled, ExecutedIn;
    StallsIff(s);
    if now + ttl > U32_MAX {
      forall ops, id
        ensures !ExecutedIn(Run(s, ops), id)
      {
        assert !ExecutedIn(s, id);
      }
    } else {
      var ops, id :| ExecutedIn(Run(s, ops), id) && !ExecutedIn(s, id);
    }
  }

  /** An executed change of the time to live freezes the contract exactly when it
      overflows from now and from every proposal not yet executed. */
  lemma NewTtlFreezesIff(s: State, id: u32, accepts: bool)
    requires Execute(s, id, accepts).Ok? && s.proposals[id].target == s.self && s.proposals[id].action.SetProposalTtl?
    ensures var t, ttl := Execute(s, id, accepts).value.0, s.proposals[id].action.ttl;
            Frozen(t) <==>
              && s.now + ttl > U32_MAX
              && forall x | x in s.proposals && x != id && s.proposals[x].status != Executed ::
                   s.proposals[x].created + ttl > U32_MAX
  {
    var t := Execute(s, id, accepts).value.0;
    ExecuteSucceedsIff(s, id, accepts);
    ExecuteDoes(s, id, accepts);
    assert t.ttl == s.proposals[id].action.ttl;
    hide Execute;
    assert forall x | x in s.proposals && x != id :: t.proposals[x] == s.proposals[x];
  }

  /** Any live contract past ledger 0 can be frozen by its own owners. */
  lemma FreezeCanBeLegislated(s: State)
    requires Inv(s) && Live(s) && 1 <= s.now
    requires forall id | id in s.proposals && s.proposals[id].status != Executed :: 1 <= s.proposals[id].created
    ensures exists ops :: Frozen(Run(s, ops))
  {
    hide Inv;
    RulesAreProper(s);
    var t := Legislate(s, SetProposalTtl(U32_MAX));
    var ops :| Run(s, ops) == t;
    assert Frozen(Run(s, ops));
  }

  // ---- Reviving an expired proposal ----

  /** After the time to live is raised to `ttl`, some later ledger executes an
      unexecuted proposal exactly under these conditions, expired or not. */
  lemma RaisedTtlRevivesIff(s: State, id: u32, ttl: u32)
    requires s.initialized && id in s.proposals
    ensures var p := s.proposals[id];
            (exists t: u32 :: s.now <= t && Step(s.(ttl := ttl, now := t), OpExecute(id, true)).Ok?)
            <==> && p.status != Executed && p.eta.Some? && |Approvals(s, id)| >= s.threshold
                 && Max(s.now, p.eta.value) <= p.created + ttl <= U32_MAX
                 && (p.target == s.self ==> Allowed(s.(ttl := ttl), p.action))
  {
    hide Execute;
    var p := s.proposals[id];
    forall t: u32
      ensures Step(s.(ttl := ttl, now := t), OpExecute(id, true)).Ok? <==>
                && p.status != Executed && p.eta.Some? && |Approvals(s, id)| >= s.threshold
                && t <= p.created + ttl <= U32_MAX && p.eta.value <= t
                && (p.target == s.self ==> Allowed(s.(ttl := ttl), p.action))
    {
      ExecuteSucceedsIff(s.(ttl := ttl, now := t), id, true);
      assert Allowed(s.(ttl := ttl, now := t), p.action) == Allowed(s.(ttl := ttl), p.action);
    }
    if p.eta.Some? && Max(s.now, p.eta.value) <= p.created + ttl <= U32_MAX {
      var t: u32 := Max(s.now, p.eta.value);
      assert Step(s.(ttl := ttl, now := t), OpExecute(id, true)).Ok? ==> s.now <= t;
    }
  }
}
