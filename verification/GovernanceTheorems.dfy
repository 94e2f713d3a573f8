/** What the governance contract promises, over every run from deployment. */
module GovernanceTheorems {
  import opened Base
  import opened GovernanceModel
  import opened GovernanceProofs

  lemma ReachableIsFine(self: Address, now: u32, ops: seq<Op>)
    ensures Inv(Run(Fresh(self, now), ops))
  {
    RunKeeps(Fresh(self, now), ops);
  }

  /** Through every self-governed change the owner set stays usable. */
  lemma ConfigurationStaysProper(self: Address, now: u32, ops: seq<Op>)
    ensures var s := Run(Fresh(self, now), ops);
            s.initialized ==> Distinct(s.owners) && 1 <= s.threshold <= |s.owners| && s.timelock < s.ttl
  {
    hide Run, BallotsAgree, RecordsAgree, HistoryIsLawful;
    ReachableIsFine(self, now, ops);
  }

  // ---- Executions ----

  lemma {:induction false} TwoExecutionsCount(j: seq<Event>, i: nat, k: nat)
    requires i < k < |j| && j[i].Performed? && j[k].Performed? && j[i].id == j[k].id
    ensures 2 <= Executions(j, j[k].id)
  {
    var before := j[..|j| - 1];
    if k < |before| {
      TwoExecutionsCount(before, i, k);
    } else {
      OneExecutionCounts(before, i);
    }
  }

  lemma {:induction false} OneExecutionCounts(j: seq<Event>, i: nat)
    requires i < |j| && j[i].Performed?
    ensures 1 <= Executions(j, j[i].id)
  {
    if i < |j| - 1 {
      OneExecutionCounts(j[..|j| - 1], i);
    }
  }

  /** No proposal is executed twice on any run. */
  lemma ExecutesAtMostOnce(self: Address, now: u32, ops: seq<Op>)
    ensures var j := Run(Fresh(self, now), ops).journal;
            forall i, k | 0 <= i < k < |j| && j[i].Performed? && j[k].Performed? :: j[i].id != j[k].id
  {
    hide Run, HistoryIsLawful, QuorumAt, VotesFor, Executions, BallotAgrees, Configured;
    ReachableIsFine(self, now, ops);
    var s := Run(Fresh(self, now), ops);
    var j := s.journal;
    forall i, k | 0 <= i < k < |j| && j[i].Performed? && j[k].Performed?
      ensures j[i].id != j[k].id
    {
      if j[i].id == j[k].id {
        TwoExecutionsCount(j, i, k);
        RecordOf(s, j[k].id);
      }
    }
  }

  lemma {:induction false} VotesPrefix(j: seq<Event>, id: u32, k: nat)
    requires k <= |j|
    ensures VotesFor(j[..k], id) <= VotesFor(j, id)
  {
    if k == |j| {
      assert j[..k] == j;
    } else {
      assert j[..|j| - 1][..k] == j[..k];
      VotesPrefix(j[..|j| - 1], id, k);
    }
  }

  /** Every vote for `id` was cast by an account that was then an owner. */
  lemma {:induction false} VotersWereOwners(j: seq<Event>, id: u32, a: Address)
    requires forall k | 0 <= k < |j| :: j[k].VoteCast? ==> VoteIsLawful(j[k])
    requires a in VotesFor(j, id)
    ensures exists k :: 0 <= k < |j| && j[k].VoteCast? && j[k].id == id && j[k].voter == a && a in j[k].owners
  {
    var e := j[|j| - 1];
    if e.VoteCast? && e.id == id && e.voter == a {
      assert VoteIsLawful(e);
    } else {
      VotersWereOwners(j[..|j| - 1], id, a);
    }
  }

  /** By position `k` of the history, `a` had voted for `id` while an owner. */
  ghost predicate VotedAsOwner(j: seq<Event>, k: int, id: u32, a: Address)
    requires k <= |j|
  {
    exists i :: 0 <= i < k && j[i].VoteCast? && j[i].id == id && j[i].voter == a && a in j[i].owners
  }

  /** Vote `v` is the first to bring `id` to the threshold of its time, and the
      timelock of its time had passed by `ledger`. */
  ghost predicate QuorumThenTimelock(j: seq<Event>, v: int, id: u32, ledger: u32)
    requires 0 <= v < |j|
  {
    && j[v].VoteCast? && j[v].id == id
    && 1 <= j[v].threshold <= |VotesFor(j[..v + 1], id)|
    && (forall i | 0 <= i < v && j[i].VoteCast? && j[i].id == id :: |VotesFor(j[..i + 1], id)| < j[i].threshold)
    && j[v].ledger + j[v].timelock <= ledger
  }

  lemma VotersAreLawful(s: State, k: nat, id: u32)
    requires Inv(s) && k <= |s.journal| && id in s.proposals
    ensures Distinct(VotesFor(s.journal[..k], id))
    ensures forall a | a in VotesFor(s.journal[..k], id) :: VotedAsOwner(s.journal, k, id, a)
  {
    hide Configured, VotesFor, QuorumAt, RecordsAgree, VoteIsLawful, Earned;
    var j, past := s.journal, s.journal[..k];
    assert BallotAgrees(s.approvals, s.ballots, j, id);
    VotesPrefix(j, id, k);
    forall a | a in VotesFor(past, id)
      ensures VotedAsOwner(j, k, id, a)
    {
      VotersWereOwners(past, id, a);
      var i :| 0 <= i < |past| && past[i].VoteCast? && past[i].id == id && past[i].voter == a && a in past[i].owners;
      assert j[i] == past[i];
    }
  }

  lemma QuorumCameFirst(s: State, k: nat) returns (v: nat)
    requires Inv(s) && k < |s.journal| && s.journal[k].Performed?
    ensures v < k && QuorumThenTimelock(s.journal, v, s.journal[k].id, s.journal[k].ledger)
  {
    hide Configured, VotesFor, QuorumAt, RecordsAgree, BallotsAgree;
    var j, e, past := s.journal, s.journal[k], s.journal[..k];
    assert Earned(past, e, s.proposals[e.id].created);
    QuorumMeans(past, e.id);
    v := QuorumAt(past, e.id).value;
    assert VoteIsLawful(j[v]) && past[v] == j[v];
    assert forall i {:trigger j[..i + 1]} | 0 <= i < k :: past[..i + 1] == j[..i + 1];
  }

  /** An execution at history position `k` follows a vote that first brought its
      duplicate-free list of then-owners to the threshold of that time; the list
      still meets the threshold at `k`, the timelock has passed and the time to
      live has not. */
  lemma ExecutionIsEarned(self: Address, now: u32, ops: seq<Op>, k: nat)
    requires var j := Run(Fresh(self, now), ops).journal;
             k < |j| && j[k].Performed?
    ensures var s := Run(Fresh(self, now), ops);
            var j, e := s.journal, s.journal[k];
            var votes := VotesFor(j[..k], e.id);
            && Distinct(votes) && 1 <= e.threshold <= |votes|
            && (forall a | a in votes :: VotedAsOwner(j, k, e.id, a))
            && (exists v :: 0 <= v < k && QuorumThenTimelock(j, v, e.id, e.ledger))
            && e.id in s.proposals && e.ledger <= s.proposals[e.id].created + e.ttl
  {
    hide Run, Configured, BallotsAgree, RecordsAgree, VotesFor, QuorumAt, VotedAsOwner, QuorumThenTimelock;
    ReachableIsFine(self, now, ops);
    var s := Run(Fresh(self, now), ops);
    var e := s.journal[k];
    assert Earned(s.journal[..k], e, s.proposals[e.id].created);
    VotersAreLawful(s, k, e.id);
    var v := QuorumCameFirst(s, k);
  }

  predicate SameRules(s: State, s': State) {
    s'.owners == s.owners && s'.threshold == s.threshold && s'.timelock == s.timelock && s'.ttl == s.ttl
  }

  /** Owners, threshold, timelock and time to live change in no other way than
      by executing a proposal that targets this contract. */
  lemma {:induction false} OnlyExecutionsReconfigure(s: State, ops: seq<Op>)
    requires Inv(s) && s.initialized
    ensures var s' := Run(s, ops);
            && s.journal <= s'.journal
            && (SameRules(s, s')
                || exists k :: |s.journal| <= k < |s'.journal| && s'.journal[k].Performed?
                               && s'.journal[k].id in s'.proposals
                               && s'.proposals[s'.journal[k].id].target == s.self)
    decreases |ops|
  {
    if ops != [] {
      var mid := Apply(s, ops[0]);
      StepKeeps(s, ops[0]);
      StepReconfigures(s, ops[0]);
      OnlyExecutionsReconfigure(mid, ops[1..]);
      TargetsStay(mid, ops[1..]);
      var end := Run(mid, ops[1..]);
      if !SameRules(s, mid) {
        assert end.journal[|s.journal|] == mid.journal[|s.journal|];
      }
    }
  }

  lemma StepReconfigures(s: State, op: Op)
    requires s.initialized
    ensures var s' := Apply(s, op);
            && s'.initialized && s.journal <= s'.journal && s'.self == s.self
            && (SameRules(s, s')
                || (&& |s'.journal| == |s.journal| + 1 && s'.journal[|s.journal|].Performed?
                    && s'.journal[|s.journal|].id in s'.proposals
                    && s'.proposals[s'.journal[|s.journal|].id].target == s.self))
  {}

  /** What a proposal is about, when it was made, the quorum it once reached and
      the fact that it was executed never change. */
  predicate Continues(p: Proposal, p': Proposal) {
    && p' == p.(status := p'.status, approved := p'.approved, executed := p'.executed, eta := p'.eta)
    && (p.status == Executed ==> p' == p)
    && (p.eta.Some? ==> p'.eta == p.eta && p'.approved == p.approved)
  }

  lemma {:induction false} TargetsStay(s: State, ops: seq<Op>)
    requires Inv(s)
    ensures forall id | id in s.proposals ::
              id in Run(s, ops).proposals && Continues(s.proposals[id], Run(s, ops).proposals[id])
    decreases |ops|
  {
    if ops != [] {
      hide Inv, Apply;
      StepKeeps(s, ops[0]);
      StepTargetsStay(s, ops[0]);
      TargetsStay(Apply(s, ops[0]), ops[1..]);
    }
  }

  lemma StepTargetsStay(s: State, op: Op)
    requires Inv(s)
    ensures forall id | id in s.proposals ::
              id in Apply(s, op).proposals && Continues(s.proposals[id], Apply(s, op).proposals[id])
  {
    hide Approve, Execute, Cancel, HistoryIsLawful, VotesFor, QuorumAt, BallotAgrees, Executions, Configured;
    if Step(s, op).Ok? {
      match op
      case OpApprove(o, id) => ApproveDoes(s, o, id); RecordOf(s, id);
      case OpExecute(id, accepts) => ExecuteDoes(s, id, accepts); ExecuteSucceedsIff(s, id, accepts);
      case OpCancel(c, id) => CancelDoes(s, c, id);
      case _ =>
    }
  }

  // ---- Cancellation ----

  /** A proposal cancelled before it ever reached quorum is dead on every run. */
  lemma {:induction false} EarlyCancelIsFinal(s: State, id: u32, ops: seq<Op>)
    requires id in s.proposals && s.proposals[id].status == Cancelled && s.proposals[id].eta.None?
    requires 0 <= id < s.nextId && s.initialized
    ensures id in Run(s, ops).proposals && Run(s, ops).proposals[id] == s.proposals[id]
    decreases |ops|
  {
    if ops != [] {
      EarlyCancelHolds(s, id, ops[0]);
      EarlyCancelIsFinal(Apply(s, ops[0]), id, ops[1..]);
    }
  }

  lemma EarlyCancelHolds(s: State, id: u32, op: Op)
    requires id in s.proposals && s.proposals[id].status == Cancelled && s.proposals[id].eta.None?
    requires 0 <= id < s.nextId && s.initialized
    ensures var s' := Apply(s, op);
            id in s'.proposals && s'.proposals[id] == s.proposals[id] && id < s'.nextId && s'.initialized
  {}

  /** If nothing but time passes after a cancel, some later ledger still executes
      the proposal exactly when it had reached quorum, has enough votes, can clear
      its timelock in time and asks for something the rules admit. */
  lemma CancelStopsIff(s: State, caller: Address, id: u32)
    requires Cancel(s, caller, id).Ok?
    ensures id in s.proposals
    ensures var p, s' := s.proposals[id], Cancel(s, caller, id).value.0;
            (forall t: u32 :: s.now <= t ==> Step(s'.(now := t), OpExecute(id, true)).Err?)
            <==> !(&& p.eta.Some? && |Approvals(s, id)| >= s.threshold
                   && Max(s.now, p.eta.value) <= p.created + s.ttl <= U32_MAX
                   && (p.target == s.self ==> Allowed(s, p.action)))
  {
    hide Execute, Cancel;
    CancelDoes(s, caller, id);
    var p, s' := s.proposals[id], Cancel(s, caller, id).value.0;
    forall t: u32
      ensures Step(s'.(now := t), OpExecute(id, true)).Ok? <==>
                && p.eta.Some? && |Approvals(s, id)| >= s.threshold
                && t <= p.created + s.ttl <= U32_MAX && p.eta.value <= t
                && (p.target == s.self ==> Allowed(s, p.action))
    {
      ExecuteSucceedsIff(s'.(now := t), id, true);
      assert Allowed(s'.(now := t), p.action) == Allowed(s, p.action);
    }
    if p.eta.Some? && |Approvals(s, id)| >= s.threshold && Max(s.now, p.eta.value) <= p.created + s.ttl <= U32_MAX {
      var t: u32 := Max(s.now, p.eta.value);
      assert Step(s'.(now := t), OpExecute(id, true)).Ok? || (p.target == s.self && !Allowed(s, p.action));
    }
  }

  /** A run on which a cancelled proposal is executed. */
  lemma CancelledProposalExecutes()
    ensures var ops := [OpInitialize([1], 1, 0, 10), OpPropose(1, 7, Unknown), OpCancel(1, 1)];
            var s := Run(Fresh(0, 100), ops);
            && 1 in s.proposals && s.proposals[1].status == Cancelled
            && 1 in Apply(s, OpExecute(1, true)).proposals
            && Apply(s, OpExecute(1, true)).proposals[1].status == Executed
  {
    var s0 := Fresh(0, 100);
    var s1 := Apply(s0, OpInitialize([1], 1, 0, 10));
    var s2 := Apply(s1, OpPropose(1, 7, Unknown));
    var s3 := Apply(s2, OpCancel(1, 1));
    RunOf3(s0, OpInitialize([1], 1, 0, 10), OpPropose(1, 7, Unknown), OpCancel(1, 1));
    assert s2.proposals[1] == Proposal(1, 7, Unknown, Approved, 100, Some(100), None, Some(100));
  }

  lemma RunOf3(s: State, a: Op, b: Op, c: Op)
    ensures Run(s, [a, b, c]) == Apply(Apply(Apply(s, a), b), c)
  {
    hide Apply;
    assert [a, b, c][1..] == [b, c] && [b, c][1..] == [c] && [c][1..] == [];
    assert Run(Apply(Apply(Apply(s, a), b), c), []) == Apply(Apply(Apply(s, a), b), c);
    assert Run(Apply(Apply(s, a), b), [c]) == Apply(Apply(Apply(s, a), b), c);
    assert Run(Apply(s, a), [b, c]) == Apply(Apply(Apply(s, a), b), c);
  }

  // ---- Expiry ----

  /** The time to live never exceeds `bound` along the run. */
  predicate TtlStaysWithin(s: State, ops: seq<Op>, bound: int)
    decreases |ops|
  {
    s.ttl <= bound && (ops == [] || TtlStaysWithin(Apply(s, ops[0]), ops[1..], bound))
  }

  /** Expiry is final on every run that does not raise the time to live past
      the proposal's age. */
  lemma {:induction false} ExpiryHolds(s: State, id: u32, ops: seq<Op>, bound: int)
    requires s.initialized && id in s.proposals && 0 <= id < s.nextId
    requires s.now > s.proposals[id].created + bound && TtlStaysWithin(s, ops, bound)
    ensures id in Run(s, ops).proposals
    ensures s.proposals[id].status != Executed ==> Run(s, ops).proposals[id].status != Executed
    decreases |ops|
  {
    if ops != [] {
      ExpiryHoldsStep(s, id, ops[0]);
      ExpiryHolds(Apply(s, ops[0]), id, ops[1..], bound);
    }
  }

  lemma ExpiryHoldsStep(s: State, id: u32, op: Op)
    requires s.initialized && id in s.proposals && 0 <= id < s.nextId && s.now > s.proposals[id].created + s.ttl
    ensures var s' := Apply(s, op);
            && s'.initialized && id in s'.proposals && id < s'.nextId && s.now <= s'.now
            && s'.proposals[id].created == s.proposals[id].created
            && (s.proposals[id].status != Executed ==> s'.proposals[id].status != Executed)
  {}

  /** A single owner's two proposals: the first external and expired, with a
      second one not yet made that will raise the time to live. */
  ghost predicate FirstExpired(s: State) {
    && s.initialized && s.self == 0 && s.now == 111 && s.owners == [1] && s.threshold == 1
    && s.timelock == 0 && s.ttl == 10 && s.nextId == 2
    && s.proposals == map[1 := Proposal(1, 7, Unknown, Approved, 100, Some(100), None, Some(100))]
    && s.approvals == map[1 := [1]]
  }

  lemma FirstExpires()
    ensures FirstExpired(Run(Fresh(0, 100), [OpInitialize([1], 1, 0, 10), OpPropose(1, 7, Unknown), OpPass(111)]))
  {
    var s := Fresh(0, 100);
    RunOf3(s, OpInitialize([1], 1, 0, 10), OpPropose(1, 7, Unknown), OpPass(111));
    assert Apply(s, OpInitialize([1], 1, 0, 10)) == s.(initialized := true, owners := [1], threshold := 1, ttl := 10);
  }

  lemma TtlIsRaised(s: State)
    requires FirstExpired(s)
    ensures var s' := Apply(Apply(s, OpPropose(1, 0, SetProposalTtl(20))), OpExecute(2, true));
            s' == s.(ttl := 20, nextId := 3, proposals := s'.proposals, approvals := s'.approvals,
                     ballots := s'.ballots, journal := s'.journal)
            && 1 in s'.proposals && s'.proposals[1] == s.proposals[1] && 1 in s'.approvals && s'.approvals[1] == [1]
  {
    var mid := Apply(s, OpPropose(1, 0, SetProposalTtl(20)));
    assert mid.proposals == s.proposals[2 := Proposal(1, 0, SetProposalTtl(20), Approved, 111, Some(111), None, Some(111))];
    assert mid.approvals == s.approvals[2 := [1]];
    ExecuteSucceedsIff(mid, 2, true);
  }

  /** An expired proposal is refused, and executed after the owners raise the
      time to live: expiry by itself is not final. */
  lemma ExpiredProposalRevives()
    ensures var s := Fresh(0, 100);
            var a := Run(s, [OpInitialize([1], 1, 0, 10), OpPropose(1, 7, Unknown), OpPass(111)]);
            var b := Run(a, [OpPropose(1, 0, SetProposalTtl(20)), OpExecute(2, true), OpExecute(1, true)]);
            && Execute(a, 1, true) == Err(Error.Expired)
            && 1 in b.proposals && b.proposals[1].status == Executed
  {
    FirstExpires();
    var a := Run(Fresh(0, 100), [OpInitialize([1], 1, 0, 10), OpPropose(1, 7, Unknown), OpPass(111)]);
    RunOf3(a, OpPropose(1, 0, SetProposalTtl(20)), OpExecute(2, true), OpExecute(1, true));
    TtlIsRaised(a);
    var b := Apply(Apply(a, OpPropose(1, 0, SetProposalTtl(20))), OpExecute(2, true));
    ExecuteSucceedsIff(b, 1, true);
    assert Execute(a, 1, true) == Err(Error.Expired);
    hide Execute, Run;
    ExecuteDoes(b, 1, true);
  }

  // ---- Lockout ----

  /** Adding the time to live to any ledger in play would overflow. */
  ghost predicate Frozen(s: State) {
    && s.initialized
    && s.now + s.ttl > U32_MAX
    && forall id | id in s.proposals && s.proposals[id].status != Executed :: s.proposals[id].created + s.ttl > U32_MAX
  }

  /** A time to live that overflows every deadline ends self-government: no run
      executes anything or changes the configuration ever again. */
  lemma {:induction false} OversizedTtlFreezes(s: State, ops: seq<Op>)
    requires Frozen(s)
    ensures var s' := Run(s, ops);
            && Frozen(s')
            && SameRules(s, s')
            && forall id :: Executions(s'.journal, id) == Executions(s.journal, id)
    decreases |ops|
  {
    if ops != [] {
      FrozenStep(s, ops[0]);
      OversizedTtlFreezes(Apply(s, ops[0]), ops[1..]);
    }
  }

  lemma FrozenStep(s: State, op: Op)
    requires Frozen(s)
    ensures var s' := Apply(s, op);
            && Frozen(s')
            && SameRules(s, s')
            && forall id :: Executions(s'.journal, id) == Executions(s.journal, id)
  {
    if op.OpPropose? {
      Appended(s.journal, VoteCast(s.nextId, op.proposer, s.now, s.owners, s.threshold, s.timelock));
    }
  }
}
