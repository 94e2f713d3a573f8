/** What each governance transaction does, in the caller's terms. */
module GovernanceEffects {
  import opened Base
  import opened GovernanceModel
  import opened GovernanceProofs
  import opened GovernanceLaws

  /** Deployment stores the configuration as given, once, if it is usable. */
  lemma InitializeDoes(s: State, owners: seq<Address>, threshold: u32, timelock: u32, ttl: u32)
    ensures var r := Initialize(s, owners, threshold, timelock, ttl);
            && (r.Ok? <==> !s.initialized && Distinct(owners) && 1 <= threshold <= |owners| && timelock < ttl)
            && (r.Ok? ==>
                  var s' := r.value.0;
                  && s' == s.(initialized := true, owners := s'.owners, threshold := s'.threshold,
                              timelock := s'.timelock, ttl := s'.ttl, nextId := 1)
                  && s'.owners == owners && s'.threshold == threshold && s'.timelock == timelock && s'.ttl == ttl)
  {}

  /** Only this proposal has changed, besides votes and the journal. */
  ghost predicate OnlyProposal(s: State, s': State, id: u32) {
    && RulesOf(s') == RulesOf(s) && s'.self == s.self && s'.now == s.now && s'.initialized == s.initialized
    && id in s'.proposals && s'.proposals.Keys == s.proposals.Keys + {id}
    && (forall x | x in s.proposals && x != id :: s'.proposals[x] == s.proposals[x])
    && forall b | b in s'.ballots && b.id != id :: b in s.ballots
  }

  /** An owner's proposal is stored as given, with the proposer's as its first vote;
      one vote is quorum exactly under a threshold of one. */
  lemma ProposeDoes(s: State, proposer: Address, target: Address, action: Action)
    requires Inv(s)
    ensures var r := Propose(s, proposer, target, action);
            && (r.Ok? <==> s.initialized && proposer in s.owners && s.nextId < 0xFFFF_FFFF
                           && (s.threshold == 1 ==> s.now + s.timelock <= 0xFFFF_FFFF))
            && (r.Ok? ==>
                  var (s', id) := r.value;
                  && id !in s.proposals && id == s.nextId && s'.nextId == id + 1 && OnlyProposal(s, s', id)
                  && s'.approvals == s.approvals[id := [proposer]] && s'.ballots == s.ballots + {Ballot(id, proposer)}
                  && var p := s'.proposals[id];
                     && p.proposer == proposer && p.target == target && p.action == action && p.created == s.now
                     && p.executed.None?
                     && (if s.threshold == 1 then p.status == Approved && p.approved == Some(s.now) && p.eta == Some(s.now + s.timelock)
                         else p.status == Pending && p.approved.None? && p.eta.None?))
  {
    hide Inv;
    NextIsNew(s);
    if s.initialized {
      RulesAreProper(s);
    }
    hide Distinct;
  }

  /** An owner who has not voted may vote for a proposal that is still open. */
  lemma ApproveSucceedsIff(s: State, owner: Address, id: u32)
    requires Inv(s)
    ensures Approve(s, owner, id).Ok? <==>
              && s.initialized && owner in s.owners && id in s.proposals && owner !in Approvals(s, id)
              && var p := s.proposals[id];
                 (p.status == Pending || p.status == Approved) && s.now <= p.created + s.ttl <= 0xFFFF_FFFF
                 && (p.eta.None? && |Approvals(s, id)| + 1 >= s.threshold ==> s.now + s.timelock <= 0xFFFF_FFFF)
  {
    hide Inv;
    if id in s.proposals {
      QuorumFacts(s, id);
      assert Ballot(id, owner) in s.ballots <==> owner in Approvals(s, id);
    }
    hide Approvals;
  }

  /** The vote is added, and the one that makes quorum for the first time starts the
      timelock; nothing else changes. */
  lemma ApproveChanges(s: State, owner: Address, id: u32)
    requires Inv(s) && Approve(s, owner, id).Ok?
    ensures id in s.proposals
    ensures var s', p := Approve(s, owner, id).value.0, s.proposals[id];
            && OnlyProposal(s, s', id) && s'.nextId == s.nextId
            && Approvals(s', id) == Approvals(s, id) + [owner]
            && var p' := s'.proposals[id];
               if p.eta.None? && |Approvals(s, id)| + 1 >= s.threshold
               then p' == p.(status := Approved, approved := Some(s.now), eta := p'.eta) && p'.eta == Some(s.now + s.timelock)
               else p' == p
  {
    hide Inv, Approve;
    ApproveDoes(s, owner, id);
    QuorumFacts(s, id);
  }

  /** An execution of an outside target marks the proposal and changes nothing else;
      one of this contract makes exactly the change it asks for besides. */
  lemma ExecuteChanges(s: State, id: u32, accepts: bool)
    requires Execute(s, id, accepts).Ok?
    ensures id in s.proposals
    ensures var s', p := Execute(s, id, accepts).value.0, s.proposals[id];
            && s'.proposals == s.proposals[id := p.(status := Executed, executed := Some(s.now))]
            && s'.approvals == s.approvals && s'.ballots == s.ballots && s'.nextId == s.nextId && s'.now == s.now
            && (if p.target != s.self then RulesOf(s') == RulesOf(s)
                else match p.action
                     case RotateOwners(owners, threshold) =>
                       s'.owners == owners && s'.threshold == threshold && s'.timelock == s.timelock && s'.ttl == s.ttl
                     case SetTimelock(timelock) =>
                       s'.timelock == timelock && s'.owners == s.owners && s'.threshold == s.threshold && s'.ttl == s.ttl
                     case SetProposalTtl(ttl) =>
                       s'.ttl == ttl && s'.owners == s.owners && s'.threshold == s.threshold && s'.timelock == s.timelock
                     case Malformed => false
                     case Unknown => false)
  {}

  /** The proposer and any owner may cancel what was not executed; nothing else changes. */
  lemma CancelChanges(s: State, caller: Address, id: u32)
    ensures var r := Cancel(s, caller, id);
            && (r.Ok? <==>
                  && s.initialized && id in s.proposals && s.proposals[id].status != Executed
                  && (s.proposals[id].proposer == caller || caller in s.owners)
                  && (s.proposals[id].status in {Pending, Approved} ==> s.proposals[id].created + s.ttl <= 0xFFFF_FFFF))
            && (r.Ok? ==> r.value.0 == s.(proposals := s.proposals[id := s.proposals[id].(status := Cancelled)]))
  {}
}
