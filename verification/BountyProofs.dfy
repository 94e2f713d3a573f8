/** The books of the bounty contract: its prizes, its payload index, its counters
    and its one winner, over every run from deployment. */
module BountyProofs {
  import opened Base
  import opened MapSum
  import opened Tokens
  import opened BountyModel

  // ---- Custody ----

  function PrizeOf(b: Bounty, token: Address): int {
    if b.token == token && b.status.Open? then b.amount else 0
  }

  function PrizesIn(bounties: map<u64, Bounty>, token: Address): map<u64, int> {
    map id | id in bounties :: PrizeOf(bounties[id], token)
  }

  ghost function Surplus(s: State, token: Address): int {
    BalanceOf(s.balances, token, s.self) - Sum<u64>(PrizesIn(s.bounties, token))
  }

  lemma PrizeUpdate(bounties: map<u64, Bounty>, id: u64, b: Bounty, token: Address)
    ensures Sum<u64>(PrizesIn(bounties[id := b], token))
         == Sum<u64>(PrizesIn(bounties, token)) - (if id in bounties then PrizeOf(bounties[id], token) else 0) + PrizeOf(b, token)
  {
    assert PrizesIn(bounties[id := b], token) == PrizesIn(bounties, token)[id := PrizeOf(b, token)];
    SumUpdate<u64>(PrizesIn(bounties, token), id, PrizeOf(b, token));
  }

  lemma PrizeCovered(bounties: map<u64, Bounty>, id: u64)
    requires id in bounties
    ensures PrizeOf(bounties[id], bounties[id].token) <= Sum<u64>(PrizesIn(bounties, bounties[id].token))
  {
    var prizes := PrizesIn(bounties, bounties[id].token);
    SumBounds<u64>(prizes);
    assert prizes[id] <= Sum<u64>(prizes);
  }

  // ---- What belongs to a bounty ----

  function SubmittedTo(subs: map<u64, Submission>, id: u64): set<u64> {
    set sid | sid in subs && subs[sid].bounty == id
  }

  function AcceptedFor(subs: map<u64, Submission>, id: u64): set<u64> {
    set sid | sid in subs && subs[sid].bounty == id && subs[sid].verdict.Accepted?
  }

  function PayoutsFor(j: seq<Payout>, id: u64): seq<Payout> {
    if j == [] then []
    else
      var before := PayoutsFor(j[..|j| - 1], id);
      if j[|j| - 1].id == id then before + [j[|j| - 1]] else before
  }

  lemma Appended(j: seq<Payout>, p: Payout)
    ensures forall id {:trigger PayoutsFor(j + [p], id)} ::
              PayoutsFor(j + [p], id) == if p.id == id then PayoutsFor(j, id) + [p] else PayoutsFor(j, id)
  {
    assert (j + [p])[..|j|] == j;
  }

  lemma {:induction false} Unseen(j: seq<Payout>, id: u64)
    requires forall k | 0 <= k < |j| :: j[k].id != id
    ensures PayoutsFor(j, id) == []
  {
    if j != [] {
      Unseen(j[..|j| - 1], id);
    }
  }

  // ---- The invariant ----

  /** The index and the submissions are each other's inverse. */
  ghost predicate IndexAgrees(subs: map<u64, Submission>, index: map<PayloadKey, u64>) {
    && (forall sid | sid in subs ::
          var key := PayloadKey(subs[sid].bounty, subs[sid].payload); key in index && index[key] == sid)
    && (forall key | key in index ::
          index[key] in subs && key == PayloadKey(subs[index[key]].bounty, subs[index[key]].payload))
  }

  /** One bounty, its payouts, its submissions and those accepted. */
  ghost predicate BountyOk(self: Address, id: u64, b: Bounty, subs: map<u64, Submission>, payouts: seq<Payout>) {
    && b.sponsor != self
    && b.submissions == |SubmittedTo(subs, id)|
    && (b.status.Paid? <==> b.winner.Some?)
    && AcceptedFor(subs, id) == (if b.winner.Some? then {b.winner.value} else {})
    && (if b.status.Open? then payouts == []
        else |payouts| == 1 && payouts[0].amount == b.amount
             && if b.status.Paid? then b.winner.value in subs && payouts[0].to == subs[b.winner.value].hunter
                else payouts[0].to == b.sponsor)
    && (b.status.Expired? ==> b.deadline < payouts[0].ledger)
    && (b.status.Cancelled? ==> b.submissions == 0)
  }

  ghost predicate BountiesOk(self: Address, bounties: map<u64, Bounty>, subs: map<u64, Submission>, j: seq<Payout>) {
    && (forall id {:trigger bounties[id]} | id in bounties :: BountyOk(self, id, bounties[id], subs, PayoutsFor(j, id)))
    && (forall k | 0 <= k < |j| :: j[k].id in bounties)
    && (forall sid | sid in subs :: subs[sid].bounty in bounties && subs[sid].hunter != self)
  }

  ghost predicate Numbered(s: State) {
    && (forall id | id in s.bounties :: 1 <= id <= s.bountyCount)
    && (forall sid | sid in s.subs :: 1 <= sid <= s.subCount)
  }

  ghost predicate Inv(s: State) {
    && Solvent(s.balances) && Numbered(s)
    && (forall t :: 0 <= Surplus(s, t))
    && IndexAgrees(s.subs, s.index)
    && BountiesOk(s.self, s.bounties, s.subs, s.journal)
  }

  ghost predicate Kept(s: State, s': State) {
    Inv(s') && s'.self == s.self && forall t :: Surplus(s, t) <= Surplus(s', t)
  }

  // ---- What changing one thing does ----

  /** One bounty changes and one transfer pays for it. */
  lemma BalanceKeeps(s: State, s': State, id: u64)
    requires forall t :: 0 <= Surplus(s, t)
    requires id in s'.bounties && s'.bounties == s.bounties[id := s'.bounties[id]] && s'.self == s.self
    requires forall t ::
               BalanceOf(s'.balances, t, s.self) - BalanceOf(s.balances, t, s.self)
               == PrizeOf(s'.bounties[id], t) - (if id in s.bounties then PrizeOf(s.bounties[id], t) else 0)
    ensures forall t :: 0 <= Surplus(s', t) && Surplus(s, t) <= Surplus(s', t)
  {
    hide PrizeOf;
    forall t
      ensures 0 <= Surplus(s', t) && Surplus(s, t) <= Surplus(s', t)
    {
      PrizeUpdate(s.bounties, id, s'.bounties[id], t);
      assert Surplus(s', t) == Surplus(s, t);
    }
  }

  lemma BountyOkElsewhere(self: Address, x: u64, b: Bounty, subs: map<u64, Submission>, subs': map<u64, Submission>, payouts: seq<Payout>)
    requires BountyOk(self, x, b, subs, payouts)
    requires SubmittedTo(subs', x) == SubmittedTo(subs, x) && AcceptedFor(subs', x) == AcceptedFor(subs, x)
    requires forall sid | sid in subs :: sid in subs' && subs'[sid].hunter == subs[sid].hunter
    ensures BountyOk(self, x, b, subs', payouts)
  {
    hide SubmittedTo, AcceptedFor;
  }

  /** The submissions and payouts of other bounties are left alone. */
  lemma BountiesStay(s: State, s': State, id: u64)
    requires BountiesOk(s.self, s.bounties, s.subs, s.journal) && s'.self == s.self
    requires id in s'.bounties && s'.bounties == s.bounties[id := s'.bounties[id]]
    requires forall x | x != id :: SubmittedTo(s'.subs, x) == SubmittedTo(s.subs, x) && AcceptedFor(s'.subs, x) == AcceptedFor(s.subs, x)
    requires forall sid | sid in s.subs :: sid in s'.subs && s'.subs[sid].hunter == s.subs[sid].hunter
    requires forall sid | sid in s'.subs ::
               s'.subs[sid].hunter != s.self && (s'.subs[sid].bounty == id || (sid in s.subs && s'.subs[sid].bounty == s.subs[sid].bounty))
    requires s'.journal == s.journal
             || exists p: Payout :: p.id == id && s'.journal == s.journal + [p]
    requires BountyOk(s.self, id, s'.bounties[id], s'.subs, PayoutsFor(s'.journal, id))
    ensures BountiesOk(s'.self, s'.bounties, s'.subs, s'.journal)
  {
    hide PayoutsFor, SubmittedTo, AcceptedFor, BountyOk;
    if s'.journal != s.journal {
      var p: Payout :| p.id == id && s'.journal == s.journal + [p];
      Appended(s.journal, p);
    }
    forall x | x in s'.bounties && x != id
      ensures BountyOk(s.self, x, s'.bounties[x], s'.subs, PayoutsFor(s'.journal, x))
    {
      BountyOkElsewhere(s.self, x, s.bounties[x], s.subs, s'.subs, PayoutsFor(s.journal, x));
    }
  }

  lemma NewBountyOk(s: State, id: u64, b: Bounty)
    requires BountiesOk(s.self, s.bounties, s.subs, s.journal) && id !in s.bounties
    requires b.status.Open? && b.winner.None? && b.submissions == 0 && b.sponsor != s.self
    ensures BountyOk(s.self, id, b, s.subs, [])
  {
    hide PayoutsFor;
    assert SubmittedTo(s.subs, id) == {} && AcceptedFor(s.subs, id) == {};
  }

  lemma CreateKeeps(s: State, sponsor: Address, token: Address, amount: i128, verifier: Address, deadline: u32)
    requires Inv(s) && CreateBounty(s, sponsor, token, amount, verifier, deadline).Ok?
    ensures Kept(s, CreateBounty(s, sponsor, token, amount, verifier, deadline).value.0)
  {
    hide Transfer, PayoutsFor, Surplus, BountyOk, IndexAgrees;
    var s' := CreateBounty(s, sponsor, token, amount, verifier, deadline).value.0;
    var id := s'.bountyCount;
    Unseen(s.journal, id);
    NewBountyOk(s, id, s'.bounties[id]);
    BalanceKeeps(s, s', id);
    BountiesStay(s, s', id);
  }

  lemma BountyFacts(s: State, id: u64)
    requires Inv(s) && id in s.bounties
    ensures BountyOk(s.self, id, s.bounties[id], s.subs, PayoutsFor(s.journal, id))
  {}

  lemma SubmissionFacts(s: State, sid: u64)
    requires Inv(s) && sid in s.subs
    ensures s.subs[sid].bounty in s.bounties && s.subs[sid].hunter != s.self
  {}

  lemma Parts(s: State)
    requires Inv(s)
    ensures Solvent(s.balances) && Numbered(s) && IndexAgrees(s.subs, s.index)
    ensures BountiesOk(s.self, s.bounties, s.subs, s.journal)
    ensures forall t :: 0 <= Surplus(s, t)
  {}

  lemma SubmitKeeps(s: State, hunter: Address, id: u64, payload: Hash)
    requires Inv(s) && SubmitPayload(s, hunter, id, payload).Ok?
    ensures Kept(s, SubmitPayload(s, hunter, id, payload).value.0)
  {
    hide Inv, PayoutsFor, Surplus, SubmittedTo, AcceptedFor, BountiesOk, IndexAgrees;
    var s' := SubmitPayload(s, hunter, id, payload).value.0;
    var sid := s'.subCount;
    Parts(s);
    assert sid !in s.subs;
    BountyFacts(s, id);
    HuntersStay(s);
    NewSubmission(s.subs, sid, s'.subs[sid]);
    IndexGrows(s.subs, s.index, sid, s'.subs[sid]);
    BalanceKeeps(s, s', id);
    BountiesStay(s, s', id);
    WholeOf(s, s');
  }

  lemma IndexGrows(subs: map<u64, Submission>, index: map<PayloadKey, u64>, sid: u64, sub: Submission)
    requires IndexAgrees(subs, index) && sid !in subs && PayloadKey(sub.bounty, sub.payload) !in index
    ensures IndexAgrees(subs[sid := sub], index[PayloadKey(sub.bounty, sub.payload) := sid])
  {}

  lemma NewSubmission(subs: map<u64, Submission>, sid: u64, sub: Submission)
    requires sid !in subs && sub.verdict.Pending?
    ensures forall x :: AcceptedFor(subs[sid := sub], x) == AcceptedFor(subs, x)
    ensures forall x | x != sub.bounty :: SubmittedTo(subs[sid := sub], x) == SubmittedTo(subs, x)
    ensures |SubmittedTo(subs[sid := sub], sub.bounty)| == |SubmittedTo(subs, sub.bounty)| + 1
  {
    assert SubmittedTo(subs[sid := sub], sub.bounty) == SubmittedTo(subs, sub.bounty) + {sid};
  }

  lemma DecidedSubmission(subs: map<u64, Submission>, sid: u64, sub: Submission)
    requires sid in subs && sub.bounty == subs[sid].bounty && subs[sid].verdict.Pending?
    ensures forall x :: SubmittedTo(subs[sid := sub], x) == SubmittedTo(subs, x)
    ensures forall x | x != sub.bounty :: AcceptedFor(subs[sid := sub], x) == AcceptedFor(subs, x)
    ensures AcceptedFor(subs[sid := sub], sub.bounty)
         == AcceptedFor(subs, sub.bounty) + if sub.verdict.Accepted? then {sid} else {}
  {}

  lemma AcceptKeeps(s: State, verifier: Address, id: u64, sid: u64, note: Hash)
    requires Inv(s) && AcceptSubmission(s, verifier, id, sid, note).Ok?
    ensures Kept(s, AcceptSubmission(s, verifier, id, sid, note).value.0)
  {
    hide Inv, Transfer, PayoutsFor, Surplus, SubmittedTo, AcceptedFor, BountiesOk;
    var s' := AcceptSubmission(s, verifier, id, sid, note).value.0;
    Parts(s);
    BountyFacts(s, id);
    SubmissionFacts(s, sid);
    DecidedSubmission(s.subs, sid, s'.subs[sid]);
    var p := Payout(id, s.subs[sid].hunter, s.bounties[id].amount, s.now);
    Appended(s.journal, p);
    assert s'.journal == s.journal + [p];
    BalanceKeeps(s, s', id);
    BountiesStay(s, s', id);
    assert IndexAgrees(s'.subs, s'.index);
    WholeOf(s, s');
  }

  lemma RejectKeeps(s: State, verifier: Address, id: u64, sid: u64)
    requires Inv(s) && RejectSubmission(s, verifier, id, sid).Ok?
    ensures Kept(s, RejectSubmission(s, verifier, id, sid).value.0)
  {
    hide Inv, PayoutsFor, Surplus, SubmittedTo, AcceptedFor, BountiesOk;
    var s' := RejectSubmission(s, verifier, id, sid).value.0;
    Parts(s);
    BountyFacts(s, id);
    SubmissionFacts(s, sid);
    DecidedSubmission(s.subs, sid, s'.subs[sid]);
    assert s'.bounties == s.bounties[id := s.bounties[id]];
    BalanceKeeps(s, s', id);
    BountiesStay(s, s', id);
    assert IndexAgrees(s'.subs, s'.index);
    WholeOf(s, s');
  }

  lemma WholeOf(s: State, s': State)
    requires Solvent(s'.balances) && Numbered(s') && IndexAgrees(s'.subs, s'.index) && s'.self == s.self
    requires BountiesOk(s'.self, s'.bounties, s'.subs, s'.journal)
    requires forall t :: 0 <= Surplus(s', t) && Surplus(s, t) <= Surplus(s', t)
    ensures Kept(s, s')
  {}

  /** Returning a prize to its sponsor. */
  lemma ReturnKeeps(s: State, id: u64, status: BountyStatus)
    requires Inv(s) && id in s.bounties && s.bounties[id].status.Open?
    requires (status.Expired? && s.bounties[id].deadline < s.now) || (status.Cancelled? && s.bounties[id].submissions == 0)
    requires PayOut(s, id, s.bounties[id].sponsor, s.bounties[id].(status := status)).Ok?
    ensures Kept(s, PayOut(s, id, s.bounties[id].sponsor, s.bounties[id].(status := status)).value)
  {
    hide Inv, Transfer, PayoutsFor, Surplus, SubmittedTo, AcceptedFor, BountiesOk;
    var s' := PayOut(s, id, s.bounties[id].sponsor, s.bounties[id].(status := status)).value;
    Parts(s);
    BountyFacts(s, id);
    var p := Payout(id, s.bounties[id].sponsor, s.bounties[id].amount, s.now);
    Appended(s.journal, p);
    assert s'.journal == s.journal + [p];
    BalanceKeeps(s, s', id);
    HuntersStay(s);
    BountiesStay(s, s', id);
    WholeOf(s, s');
  }

  lemma HuntersStay(s: State)
    requires BountiesOk(s.self, s.bounties, s.subs, s.journal)
    ensures forall sid | sid in s.subs :: s.subs[sid].hunter != s.self
  {}

  lemma OutsideKeeps(s: State, now: u32, balances: Balances)
    requires Inv(s) && Permitted(s, now, balances)
    ensures Kept(s, s.(now := now, balances := balances))
  {
    hide PayoutsFor, BountyOk, IndexAgrees;
    var s' := s.(now := now, balances := balances);
    assert forall t :: Surplus(s, t) <= Surplus(s', t);
  }

  lemma StepKeeps(s: State, op: Op)
    requires Inv(s)
    ensures Kept(s, Apply(s, op))
  {
    hide Inv, PayOut, CreateBounty, SubmitPayload, AcceptSubmission, RejectSubmission;
    if Step(s, op).Ok? {
      match op
      case OpCreate(p, t, a, v, d) => CreateKeeps(s, p, t, a, v, d);
      case OpSubmit(h, id, x) => SubmitKeeps(s, h, id, x);
      case OpAccept(v, id, sid, n) => AcceptKeeps(s, v, id, sid, n);
      case OpReject(v, id, sid) => RejectKeeps(s, v, id, sid);
      case OpClose(id) => ReturnKeeps(s, id, BountyStatus.Expired);
      case OpCancel(_, id) => ReturnKeeps(s, id, Cancelled);
      case OpOutside(now, b) => OutsideKeeps(s, now, b);
    }
  }

  lemma {:induction false} RunKeeps(s: State, ops: seq<Op>)
    requires Inv(s)
    ensures Kept(s, Run(s, ops))
    decreases |ops|
  {
    hide Inv, Apply;
    if ops != [] {
      StepKeeps(s, ops[0]);
      RunKeeps(Apply(s, ops[0]), ops[1..]);
    }
  }

  lemma FreshIsFine(s: State)
    requires Fresh(s)
    ensures Inv(s)
  {
    forall t
      ensures 0 <= Surplus(s, t)
    {
      assert PrizesIn(s.bounties, t) == map[];
    }
  }
}
