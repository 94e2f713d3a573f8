/** What each bounty transaction does, in the caller's terms: when it goes through,
    every balance it moves, and what it leaves in the records. */
module BountyEffects {
  import opened Base
  import opened Tokens
  import opened BountyModel
  import opened BountyProofs
  import opened BountyTheorems

  /** Only this bounty has changed, besides submissions, index and the journal. */
  ghost predicate OnlyBounty(s: State, s': State, id: u64) {
    && s'.self == s.self && s'.now == s.now
    && id in s'.bounties && s'.bounties.Keys == s.bounties.Keys + {id}
    && forall x | x in s.bounties && x != id :: s'.bounties[x] == s.bounties[x]
  }

  /** Only this submission has changed. */
  ghost predicate OnlySubmission(s: State, s': State, sid: u64) {
    && sid in s'.subs && s'.subs.Keys == s.subs.Keys + {sid}
    && forall x | x in s.subs && x != sid :: s'.subs[x] == s.subs[x]
  }

  ghost predicate SubmissionsStand(s: State, s': State) {
    s'.subs == s.subs && s'.index == s.index && s'.subCount == s.subCount
  }

  /** A bounty locks its prize and stores its terms as given. */
  lemma CreateDoes(s: State, sponsor: Address, token: Address, amount: i128, verifier: Address, deadline: u32)
    requires Inv(s)
    ensures var r := CreateBounty(s, sponsor, token, amount, verifier, deadline);
            && (r.Ok? <==> sponsor != s.self && 0 < amount <= BalanceOf(s.balances, token, sponsor)
                           && BalanceOf(s.balances, token, s.self) + amount <= I128_MAX
                           && s.now < deadline && s.bountyCount < 0xFFFF_FFFF_FFFF_FFFF)
            && (r.Ok? ==>
                  var (s', id) := r.value;
                  && id !in s.bounties && id == s.bountyCount + 1 == s'.bountyCount
                  && OnlyBounty(s, s', id) && SubmissionsStand(s, s')
                  && Transferred(s.balances, s'.balances, token, sponsor, s.self, amount)
                  && var b := s'.bounties[id];
                     && b.sponsor == sponsor && b.token == token && b.amount == amount && b.verifier == verifier
                     && b.deadline == deadline && b.created == s.now
                     && b.status == Open && b.winner.None? && b.submissions == 0)
  {
    hide BountiesOk, IndexAgrees, BalanceOf;
    assert Solvent(s.balances) && Numbered(s);
    assert forall id | id in s.bounties :: id <= s.bountyCount;
    hide Inv;
  }

  /** A submission stores the hunter and the payload as given, under the next number,
      for an open bounty up to its deadline and a payload not seen for it before. */
  lemma SubmitDoes(s: State, hunter: Address, id: u64, payload: Hash)
    requires Inv(s)
    ensures var r := SubmitPayload(s, hunter, id, payload);
            && (r.Ok? <==> hunter != s.self && id in s.bounties && s.bounties[id].status == Open
                           && s.now <= s.bounties[id].deadline && s.subCount < 0xFFFF_FFFF_FFFF_FFFF
                           && s.bounties[id].submissions < 0xFFFF_FFFF_FFFF_FFFF
                           && forall sid | sid in s.subs :: !(s.subs[sid].bounty == id && s.subs[sid].payload == payload))
            && (r.Ok? ==>
                  var (s', sid) := r.value;
                  && sid !in s.subs && sid == s.subCount + 1 == s'.subCount
                  && OnlyBounty(s, s', id) && OnlySubmission(s, s', sid) && s'.balances == s.balances
                  && s'.bounties[id] == s.bounties[id].(submissions := s.bounties[id].submissions + 1)
                  && var x := s'.subs[sid];
                     && x.bounty == id && x.hunter == hunter && x.payload == payload && x.verdict == Pending
                     && x.submittedAt == s.now && x.verifiedAt.None? && x.note.None?)
  {
    hide BountiesOk, Surplus;
    assert Numbered(s) && IndexAgrees(s.subs, s.index);
    hide Inv;
    var key := PayloadKey(id, payload);
    if key in s.index {
      assert s.subs[s.index[key]].bounty == id && s.subs[s.index[key]].payload == payload;
    }
    assert s.subCount < 0xFFFF_FFFF_FFFF_FFFF ==> s.subCount + 1 !in s.subs;
  }

  /** The bounty ends as given and exactly its prize goes to `to`. */
  ghost predicate EndsPaying(s: State, s': State, id: u64, to: Address, ended: Bounty) {
    && id in s.bounties && OnlyBounty(s, s', id) && s'.bountyCount == s.bountyCount && s'.bounties[id] == ended
    && Transferred(s.balances, s'.balances, s.bounties[id].token, s.self, to, s.bounties[id].amount)
  }

  lemma PayOutDoes(s: State, id: u64, to: Address, ended: Bounty)
    requires id in s.bounties && ended.token == s.bounties[id].token && ended.amount == s.bounties[id].amount
    requires PayOut(s, id, to, ended).Ok?
    ensures EndsPaying(s, PayOut(s, id, to, ended).value, id, to, ended) && SubmissionsStand(s, PayOut(s, id, to, ended).value)
  {
    hide BalanceOf;
  }

  /** An acceptance pays the submission's hunter and records it as the winner. */
  lemma AcceptDoes(s: State, verifier: Address, id: u64, sid: u64, note: Hash)
    requires AcceptSubmission(s, verifier, id, sid, note).Ok?
    ensures var s' := AcceptSubmission(s, verifier, id, sid, note).value.0;
            && id in s.bounties && sid in s.subs
            && EndsPaying(s, s', id, s.subs[sid].hunter, s.bounties[id].(status := Paid, winner := Some(sid)))
            && OnlySubmission(s, s', sid) && s'.index == s.index
            && s'.subs[sid] == s.subs[sid].(verdict := Accepted, verifiedAt := Some(s.now), note := Some(note))
  {
    hide PayOut, Transferred;
    PayOutDoes(s, id, s.subs[sid].hunter, s.bounties[id].(status := Paid, winner := Some(sid)));
  }

  /** A rejection needs the verifier and a pending submission of that bounty, and
      changes nothing else. */
  lemma RejectDoes(s: State, verifier: Address, id: u64, sid: u64)
    ensures var r := RejectSubmission(s, verifier, id, sid);
            && (r.Ok? <==> id in s.bounties && s.bounties[id].verifier == verifier && sid in s.subs
                           && s.subs[sid].bounty == id && s.subs[sid].verdict == Pending)
            && (r.Ok? ==>
                  var s' := r.value.0;
                  && s' == s.(subs := s'.subs) && OnlySubmission(s, s', sid)
                  && s'.subs[sid] == s.subs[sid].(verdict := Rejected, verifiedAt := Some(s.now)))
  {}

  /** Both returns pay the prize back to the sponsor. */
  lemma ReturnsDo(s: State, sponsor: Address, id: u64)
    ensures CloseExpired(s, id).Ok? ==>
              id in s.bounties
              && EndsPaying(s, CloseExpired(s, id).value.0, id, s.bounties[id].sponsor,
                            s.bounties[id].(status := BountyStatus.Expired))
    ensures CancelBounty(s, sponsor, id).Ok? ==>
              id in s.bounties
              && EndsPaying(s, CancelBounty(s, sponsor, id).value.0, id, s.bounties[id].sponsor, s.bounties[id].(status := Cancelled))
  {
    hide PayOut, EndsPaying;
    if CloseExpired(s, id).Ok? {
      PayOutDoes(s, id, s.bounties[id].sponsor, s.bounties[id].(status := BountyStatus.Expired));
    }
    if CancelBounty(s, sponsor, id).Ok? {
      PayOutDoes(s, id, s.bounties[id].sponsor, s.bounties[id].(status := Cancelled));
    }
  }
}
