/** The bounty oracle as it is written: three maps and two counters rewritten
    step by step, each entry point proved against its transition function. */
module BugBounty {
  import opened Base
  import opened Tokens
  import B = BountyModel
  import opened BountyModel
  import opened BountyProofs

  class BugBountyOracle {
    const self: Address
    const host: Host

    var bounties: map<u64, Bounty>
    var subs: map<u64, Submission>
    var index: map<PayloadKey, u64>
    var bountyCount: u64
    var subCount: u64
    ghost var journal: seq<Payout>

    ghost function View(): State
      reads this, host
    {
      State(self, host.ledger, host.balances, bounties, subs, index, bountyCount, subCount, journal)
    }

    ghost predicate Valid()
      reads this, host
    {
      Inv(View())
    }

    constructor (self: Address, host: Host)
      requires Solvent(host.balances)
      ensures this.self == self && this.host == host && Valid() && Fresh(View())
    {
      this.self, this.host := self, host;
      bounties, subs, index, bountyCount, subCount, journal := map[], map[], map[], 0, 0, [];
      new;
      FreshIsFine(View());
    }

    method CreateBounty(sponsor: Address, token: Address, amount: i128, verifier: Address, deadline: u32)
      returns (r: Result<u64>)
      requires Valid()
      modifies this, host`balances
      ensures View() == After(old(View()), B.CreateBounty(old(View()), sponsor, token, amount, verifier, deadline))
      ensures r == Seen(B.CreateBounty(old(View()), sponsor, token, amount, verifier, deadline))
      ensures Valid()
    {
      hide Inv, Transfer;
      StepKeeps(View(), OpCreate(sponsor, token, amount, verifier, deadline));
      if sponsor == self {
        return Err(NotAuthorized);
      }
      if amount <= 0 {
        return Err(AmountNotPositive);
      }
      if deadline <= host.ledger {
        return Err(BadDeadline);
      }
      var saved := host.balances;
      var moved := host.TransferTokens(token, sponsor, self, amount);
      if moved.Err? {
        return Err(moved.error);
      }
      if bountyCount >= U64_MAX {
        host.balances := saved;
        return Err(Overflow);
      }
      bountyCount := bountyCount + 1;
      bounties := bounties[bountyCount := Bounty(sponsor, token, amount, verifier, deadline, Open, None, 0, host.ledger)];
      return Ok(bountyCount);
    }

    method SubmitPayload(hunter: Address, id: u64, payload: Hash) returns (r: Result<u64>)
      requires Valid()
      modifies this
      ensures View() == After(old(View()), B.SubmitPayload(old(View()), hunter, id, payload))
      ensures r == Seen(B.SubmitPayload(old(View()), hunter, id, payload))
      ensures Valid()
    {
      hide Inv;
      StepKeeps(View(), OpSubmit(hunter, id, payload));
      if hunter == self {
        return Err(NotAuthorized);
      }
      if id !in bounties {
        return Err(NotFound);
      }
      var b := bounties[id];
      if b.status != Open {
        return Err(WrongStatus);
      }
      if host.ledger > b.deadline {
        return Err(Error.Expired);
      }
      var key := PayloadKey(id, payload);
      if key in index {
        return Err(Duplicate);
      }
      if subCount >= U64_MAX || b.submissions >= U64_MAX {
        return Err(Overflow);
      }
      subCount := subCount + 1;
      subs := subs[subCount := Submission(id, hunter, payload, Pending, host.ledger, None, None)];
      b := b.(submissions := b.submissions + 1);
      bounties := bounties[id := b];
      index := index[key := subCount];
      return Ok(subCount);
    }

    /** Pays the prize out and stores the ended bounty; a refusal changes nothing. */
    method PayOut(id: u64, to: Address, ended: Bounty) returns (r: Result<()>)
      modifies this`bounties, this`journal, host`balances
      ensures r.Ok? == B.PayOut(old(View()), id, to, ended).Ok?
      ensures r.Ok? ==> View() == B.PayOut(old(View()), id, to, ended).value
      ensures r.Err? ==> View() == old(View()) && r.error == B.PayOut(old(View()), id, to, ended).error
    {
      hide Transfer;
      var moved := host.TransferTokens(ended.token, self, to, ended.amount);
      if moved.Err? {
        return Err(moved.error);
      }
      journal := journal + [Payout(id, to, ended.amount, host.ledger)];
      bounties := bounties[id := ended];
      return Ok(());
    }

    method Decidable(verifier: Address, id: u64, sid: u64) returns (r: Result<Submission>)
      ensures r == B.Decidable(View(), verifier, id, sid)
    {
      if id !in bounties {
        return Err(NotFound);
      }
      if bounties[id].verifier != verifier {
        return Err(NotAuthorized);
      }
      if sid !in subs {
        return Err(NotFound);
      }
      if subs[sid].bounty != id {
        return Err(NotParty);
      }
      if subs[sid].verdict != Pending {
        return Err(WrongStatus);
      }
      return Ok(subs[sid]);
    }

    method AcceptSubmission(verifier: Address, id: u64, sid: u64, note: Hash) returns (r: Result<()>)
      requires Valid()
      modifies this, host`balances
      ensures View() == After(old(View()), B.AcceptSubmission(old(View()), verifier, id, sid, note))
      ensures r == Seen(B.AcceptSubmission(old(View()), verifier, id, sid, note))
      ensures Valid()
    {
      hide Inv, Transfer;
      StepKeeps(View(), OpAccept(verifier, id, sid, note));
      if id !in bounties {
        return Err(NotFound);
      }
      var b := bounties[id];
      if b.status != Open {
        return Err(WrongStatus);
      }
      var found := Decidable(verifier, id, sid);
      if found.Err? {
        return Err(found.error);
      }
      var sub := found.value;
      b := b.(status := Paid, winner := Some(sid));
      var paid := PayOut(id, sub.hunter, b);
      if paid.Err? {
        return Err(paid.error);
      }
      sub := sub.(verdict := Accepted, verifiedAt := Some(host.ledger), note := Some(note));
      subs := subs[sid := sub];
      return Ok(());
    }

    method RejectSubmission(verifier: Address, id: u64, sid: u64) returns (r: Result<()>)
      requires Valid()
      modifies this
      ensures View() == After(old(View()), B.RejectSubmission(old(View()), verifier, id, sid))
      ensures r == Seen(B.RejectSubmission(old(View()), verifier, id, sid))
      ensures Valid()
    {
      hide Inv;
      StepKeeps(View(), OpReject(verifier, id, sid));
      var found := Decidable(verifier, id, sid);
      if found.Err? {
        return Err(found.error);
      }
      subs := subs[sid := found.value.(verdict := Rejected, verifiedAt := Some(host.ledger))];
      return Ok(());
    }

    method CloseExpired(id: u64) returns (r: Result<()>)
      requires Valid()
      modifies this, host`balances
      ensures View() == After(old(View()), B.CloseExpired(old(View()), id))
      ensures r == Seen(B.CloseExpired(old(View()), id))
      ensures Valid()
    {
      hide Inv, B.PayOut;
      StepKeeps(View(), OpClose(id));
      if id !in bounties {
        return Err(NotFound);
      }
      var b := bounties[id];
      if b.status != Open {
        return Err(WrongStatus);
      }
      if host.ledger <= b.deadline {
        return Err(WindowOpen);
      }
      var paid := PayOut(id, b.sponsor, b.(status := BountyStatus.Expired));
      if paid.Err? {
        return Err(paid.error);
      }
      return Ok(());
    }

    method CancelBounty(sponsor: Address, id: u64) returns (r: Result<()>)
      requires Valid()
      modifies this, host`balances
      ensures View() == After(old(View()), B.CancelBounty(old(View()), sponsor, id))
      ensures r == Seen(B.CancelBounty(old(View()), sponsor, id))
      ensures Valid()
    {
      hide Inv, B.PayOut;
      StepKeeps(View(), OpCancel(sponsor, id));
      if id !in bounties {
        return Err(NotFound);
      }
      var b := bounties[id];
      if b.sponsor != sponsor {
        return Err(NotAuthorized);
      }
      if b.status != Open {
        return Err(WrongStatus);
      }
      if b.submissions > 0 {
        return Err(TooMany);
      }
      var paid := PayOut(id, b.sponsor, b.(status := Cancelled));
      if paid.Err? {
        return Err(paid.error);
      }
      return Ok(());
    }
  }
}
