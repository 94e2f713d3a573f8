/** What the bounty contract promises sponsors and hunters, on every run. */
module BountyTheorems {
  import opened Base
  import opened MapSum
  import opened Tokens
  import opened BountyModel
  import opened BountyProofs

  lemma ReachableIsFine(s: State, ops: seq<Op>)
    requires Fresh(s)
    ensures Inv(Run(s, ops)) && forall t :: Surplus(s, t) <= Surplus(Run(s, ops), t)
  {
    FreshIsFine(s);
    RunKeeps(s, ops);
  }

  /** The contract always holds the prize of every open bounty, and tokens beyond
      that never leave it. */
  lemma PrizesAreHeld(s: State, ops: seq<Op>, token: Address)
    requires Fresh(s)
    ensures var s' := Run(s, ops);
            && Sum<u64>(PrizesIn(s'.bounties, token)) <= BalanceOf(s'.balances, token, s'.self)
            && BalanceOf(s.balances, token, s.self)
               <= BalanceOf(s'.balances, token, s'.self) - Sum<u64>(PrizesIn(s'.bounties, token))
  {
    hide Run, BountiesOk, IndexAgrees, Numbered;
    ReachableIsFine(s, ops);
    assert Surplus(s, token) <= Surplus(Run(s, ops), token) && 0 <= Surplus(Run(s, ops), token);
    assert PrizesIn(s.bounties, token) == map[];
  }

  /** A bounty is paid exactly when one of its submissions is accepted; that one is
      the only one, it is the recorded winner, and its hunter has the prize. Every
      other ended bounty has returned its prize to the sponsor, once. */
  lemma OneWinnerPaidOnce(s: State, ops: seq<Op>, id: u64)
    requires Fresh(s) && id in Run(s, ops).bounties
    ensures var s' := Run(s, ops);
            var b, payouts, accepted := s'.bounties[id], PayoutsFor(s'.journal, id), AcceptedFor(s'.subs, id);
            && (b.status.Paid? <==> accepted != {})
            && (b.status.Paid? ==> b.winner.Some? && accepted == {b.winner.value} && b.winner.value in s'.subs)
            && |payouts| == (if b.status.Open? then 0 else 1)
            && forall k | 0 <= k < |payouts| ::
                 payouts[k].amount == b.amount
                 && payouts[k].to == if b.status.Paid? then s'.subs[b.winner.value].hunter else b.sponsor
  {
    hide Run, Inv, PayoutsFor, SubmittedTo, AcceptedFor;
    ReachableIsFine(s, ops);
    BountyFacts(Run(s, ops), id);
  }

  /** The counter is the number of submissions, and the payload index is a
      bijection between (bounty, payload) pairs and submissions. */
  lemma IndexIsABijection(s: State, ops: seq<Op>)
    requires Fresh(s)
    ensures var s' := Run(s, ops);
            && (forall id | id in s'.bounties :: s'.bounties[id].submissions == |SubmittedTo(s'.subs, id)|)
            && (forall key | key in s'.index :: s'.index[key] in s'.subs)
            && (forall a, b | a in s'.index && b in s'.index && s'.index[a] == s'.index[b] :: a == b)
            && (forall sid | sid in s'.subs ::
                  var key := PayloadKey(s'.subs[sid].bounty, s'.subs[sid].payload); key in s'.index && s'.index[key] == sid)
  {
    hide Run, PayoutsFor, SubmittedTo, AcceptedFor;
    ReachableIsFine(s, ops);
    var s' := Run(s, ops);
    forall id | id in s'.bounties
      ensures s'.bounties[id].submissions == |SubmittedTo(s'.subs, id)|
    {
      BountyFacts(s', id);
    }
  }

  // ---- Progress ----

  /** An ended bounty never changes; an open one keeps its terms. */
  predicate BountyContinues(b: Bounty, b': Bounty) {
    && b' == b.(status := b'.status, winner := b'.winner, submissions := b'.submissions)
    && b.submissions <= b'.submissions
    && (!b.status.Open? ==> b' == b)
  }

  /** A decided submission never changes; a pending one keeps what was submitted. */
  predicate SubmissionContinues(x: Submission, x': Submission) {
    && x' == x.(verdict := x'.verdict, verifiedAt := x'.verifiedAt, note := x'.note)
    && (!x.verdict.Pending? ==> x' == x)
  }

  ghost predicate Continues(s: State, s': State) {
    && (forall id | id in s.bounties :: id in s'.bounties && BountyContinues(s.bounties[id], s'.bounties[id]))
    && (forall sid | sid in s.subs :: sid in s'.subs && SubmissionContinues(s.subs[sid], s'.subs[sid]))
  }

  lemma BountiesContinue(s: State, op: Op)
    requires Numbered(s) && Step(s, op).Ok?
    ensures forall id | id in s.bounties ::
              id in Step(s, op).value.bounties && BountyContinues(s.bounties[id], Step(s, op).value.bounties[id])
  {
    hide Transfer, Numbered;
    if op.OpCreate? {
      NextIdsAreNew(s);
    }
  }

  lemma SubmissionsContinue(s: State, op: Op)
    requires Numbered(s) && Step(s, op).Ok?
    ensures forall sid | sid in s.subs ::
              sid in Step(s, op).value.subs && SubmissionContinues(s.subs[sid], Step(s, op).value.subs[sid])
  {
    hide Transfer, Numbered;
    if op.OpSubmit? {
      NextIdsAreNew(s);
    }
  }

  lemma NextIdsAreNew(s: State)
    requires Numbered(s)
    ensures s.bountyCount + 1 <= U64_MAX ==> s.bountyCount + 1 !in s.bounties
    ensures s.subCount + 1 <= U64_MAX ==> s.subCount + 1 !in s.subs
  {}

  lemma StepContinues(s: State, op: Op)
    requires Inv(s)
    ensures Continues(s, Apply(s, op))
  {
    hide Inv, Step;
    Parts(s);
    if Step(s, op).Ok? {
      BountiesContinue(s, op);
      SubmissionsContinue(s, op);
    }
  }

  lemma {:induction false} RunContinues(s: State, ops: seq<Op>)
    requires Inv(s)
    ensures Continues(s, Run(s, ops))
    decreases |ops|
  {
    hide Inv, Apply;
    if ops != [] {
      StepKeeps(s, ops[0]);
      StepContinues(s, ops[0]);
      RunContinues(Apply(s, ops[0]), ops[1..]);
    }
  }

  // ---- Who can end a bounty, and when ----

  predicate Receivable(s: State, b: Bounty, to: Address) {
    BalanceOf(s.balances, b.token, to) + b.amount <= I128_MAX
  }

  /** Custody makes an open prize always payable. */
  lemma PayOutSucceedsIff(s: State, id: u64, to: Address, ended: Bounty)
    requires Inv(s) && id in s.bounties && s.bounties[id].status.Open? && to != s.self
    requires ended.token == s.bounties[id].token && ended.amount == s.bounties[id].amount
    ensures PayOut(s, id, to, ended).Ok? <==> Receivable(s, s.bounties[id], to)
  {
    hide BountiesOk, IndexAgrees, Numbered;
    PrizeCovered(s.bounties, id);
    assert 0 <= Surplus(s, ended.token);
  }

  /** The verifier can pay any pending submission while the bounty is open,
      whether or not its deadline has passed. */
  lemma AcceptSucceedsIff(s: State, verifier: Address, id: u64, sid: u64, note: Hash)
    requires Inv(s)
    ensures AcceptSubmission(s, verifier, id, sid, note).Ok? <==>
              && id in s.bounties && sid in s.subs
              && var b, sub := s.bounties[id], s.subs[sid];
                 b.status.Open? && b.verifier == verifier && sub.bounty == id && sub.verdict.Pending?
                 && Receivable(s, b, sub.hunter)
  {
    hide Inv, PayOut;
    if id in s.bounties && sid in s.subs && s.bounties[id].status.Open? {
      SubmissionFacts(s, sid);
      PayOutSucceedsIff(s, id, s.subs[sid].hunter, s.bounties[id].(status := Paid, winner := Some(sid)));
    }
  }

  /** Anyone can return the prize once the deadline is past, pending submissions
      or not; before it only the sponsor can, and only if nobody ever submitted. */
  lemma ReturnSucceedsIff(s: State, caller: Address, id: u64)
    requires Inv(s)
    ensures CloseExpired(s, id).Ok? <==>
              && id in s.bounties && s.bounties[id].status.Open?
              && s.bounties[id].deadline < s.now && Receivable(s, s.bounties[id], s.bounties[id].sponsor)
    ensures CancelBounty(s, caller, id).Ok? <==>
              && id in s.bounties && s.bounties[id].status.Open?
              && s.bounties[id].sponsor == caller && SubmittedTo(s.subs, id) == {}
              && Receivable(s, s.bounties[id], caller)
  {
    hide Inv, PayOut;
    if id in s.bounties && s.bounties[id].status.Open? {
      BountyFacts(s, id);
      PayOutSucceedsIff(s, id, s.bounties[id].sponsor, s.bounties[id].(status := BountyStatus.Expired));
      PayOutSucceedsIff(s, id, s.bounties[id].sponsor, s.bounties[id].(status := Cancelled));
      assert s.bounties[id].submissions == 0 <==> SubmittedTo(s.subs, id) == {};
    }
  }

  /** Once a submission is accepted, on no later run is another accepted for the
      same bounty or the prize returned, whatever the race at the deadline. */
  lemma AcceptanceIsFinal(s: State, verifier: Address, id: u64, sid: u64, note: Hash, ops: seq<Op>)
    requires Inv(s) && AcceptSubmission(s, verifier, id, sid, note).Ok?
    ensures var end := Run(AcceptSubmission(s, verifier, id, sid, note).value.0, ops);
            && id in end.bounties && end.bounties[id].status.Paid? && end.bounties[id].winner == Some(sid)
            && AcceptedFor(end.subs, id) == {sid}
            && |PayoutsFor(end.journal, id)| == 1 && PayoutsFor(end.journal, id)[0].to == s.subs[sid].hunter
  {
    hide Inv, Run, PayOut, PayoutsFor, AcceptedFor, SubmittedTo;
    var mid := AcceptSubmission(s, verifier, id, sid, note).value.0;
    AcceptDoes(s, verifier, id, sid, note);
    AcceptKeeps(s, verifier, id, sid, note);
    RunKeeps(mid, ops);
    RunContinues(mid, ops);
    BountyFacts(Run(mid, ops), id);
    assert SubmissionContinues(mid.subs[sid], Run(mid, ops).subs[sid]);
  }

  lemma AcceptDoes(s: State, verifier: Address, id: u64, sid: u64, note: Hash)
    requires AcceptSubmission(s, verifier, id, sid, note).Ok?
    ensures id in s.bounties && sid in s.subs
    ensures var s' := AcceptSubmission(s, verifier, id, sid, note).value.0;
            && s'.bounties == s.bounties[id := s.bounties[id].(status := Paid, winner := Some(sid))]
            && sid in s'.subs && s'.subs[sid].hunter == s.subs[sid].hunter
  {}
}
