/** The subscription contract as it is written: one stored list, scanned by id
    and rewritten in place. */
module Subscriptions {
  import opened Base
  import opened Arithmetic
  import opened Tokens
  import S = SubscriptionModel
  import opened SubscriptionModel
  import opened SubscriptionProofs

  class SubscriptionContract {
    const host: Host

    var subs: seq<Record>
    var nextId: u32
    ghost var journal: seq<Charge>

    ghost function View(): State
      reads this, host
    {
      State(host.ledger, host.balances, subs, nextId, journal)
    }

    ghost predicate Valid()
      reads this, host
    {
      Inv(View())
    }

    constructor (host: Host)
      requires Solvent(host.balances)
      ensures this.host == host && Valid() && View() == Fresh(host.ledger, host.balances)
    {
      this.host := host;
      subs, nextId, journal := [], 0, [];
    }

    method FindIndex(id: u32) returns (i: nat)
      ensures i == S.FindIndex(subs, id)
    {
      for k := 0 to |subs|
        invariant S.FindIndex(subs, id) == k + S.FindIndex(subs[k..], id)
      {
        if subs[k].id == id {
          return k;
        }
        assert subs[k..][1..] == subs[k + 1..];
      }
      return |subs|;
    }

    method CountActive(payer: Address) returns (n: nat)
      ensures n == ActiveCount(subs, payer)
    {
      n := 0;
      for k := 0 to |subs|
        invariant n == ActiveCount(subs[..k], payer)
      {
        assert subs[..k + 1][..k] == subs[..k];
        if subs[k].payer == payer && subs[k].status == Active {
          n := n + 1;
        }
      }
      assert subs[..|subs|] == subs;
    }

    method Subscribe(payer: Address, payee: Address, token: Address, amount: i128, interval: u32, maxPeriods: u32)
      returns (r: Result<u32>)
      requires Valid()
      modifies this
      ensures View() == After(old(View()), S.Subscribe(old(View()), payer, payee, token, amount, interval, maxPeriods))
      ensures r == Seen(S.Subscribe(old(View()), payer, payee, token, amount, interval, maxPeriods))
      ensures Valid()
    {
      hide Inv;
      StepKeeps(View(), OpSubscribe(payer, payee, token, amount, interval, maxPeriods));
      if amount <= 0 {
        return Err(AmountNotPositive);
      }
      if interval == 0 {
        return Err(WindowTooShort);
      }
      if maxPeriods == 0 {
        return Err(LimitNotPositive);
      }
      if payer == payee {
        return Err(NotParty);
      }
      var open := CountActive(payer);
      if open >= MAX_SUBSCRIPTIONS_PER_PAYER {
        return Err(TooMany);
      }
      if nextId >= U32_MAX || host.ledger + interval > U32_MAX {
        return Err(Overflow);
      }
      var id := nextId;
      nextId := nextId + 1;
      subs := subs + [S.Subscription(id, payer, payee, token, amount, interval, maxPeriods, 0,
                                     host.ledger, host.ledger + interval, Active, None)];
      return Ok(id);
    }

    /** Charges `count` periods of the record at `i`; a refusal changes nothing. */
    method AdvancePeriods(i: nat, count: int) returns (r: Result<()>)
      requires i < |subs| && 0 <= count <= subs[i].maxPeriods - subs[i].current
      modifies this, host`balances
      ensures r.Ok? == Advance(old(View()), i, count).Ok?
      ensures r.Ok? ==> View() == Advance(old(View()), i, count).value
      ensures r.Err? ==> View() == old(View()) && r.error == Advance(old(View()), i, count).error
    {
      hide Transfer;
      if count == 0 {
        return Ok(());
      }
      var sub: Record := subs[i];
      var total := sub.amount * count;
      if total > I128_MAX {
        return Err(Overflow);
      }
      var saved := host.balances;
      var moved := host.TransferTokens(sub.token, sub.payer, sub.payee, total);
      if moved.Err? {
        return Err(moved.error);
      }
      if sub.next + count * sub.interval > U32_MAX {
        host.balances := saved;
        return Err(Overflow);
      }
      MulLe(0, count, sub.interval);
      journal := journal + [Charge(sub.id, host.ledger, total)];
      sub := sub.(current := sub.current + count, next := sub.next + count * sub.interval);
      if sub.current >= sub.maxPeriods {
        sub := sub.(status := Exhausted);
      }
      subs := subs[i := sub];
      return Ok(());
    }

    method Collect(id: u32, caller: Address) returns (r: Result<int>)
      requires Valid()
      modifies this, host`balances
      ensures View() == After(old(View()), S.Collect(old(View()), id, caller))
      ensures r == Seen(S.Collect(old(View()), id, caller))
      ensures Valid()
    {
      hide Inv, Advance, DuePeriodsCapped;
      StepKeeps(View(), OpCollect(id, caller));
      var i := FindIndex(id);
      if i == |subs| {
        return Err(NotFound);
      }
      var sub := subs[i];
      if caller != sub.payee {
        return Err(NotAuthorized);
      }
      if sub.status != Active {
        return Err(WrongStatus);
      }
      var due := DuePeriodsCapped(sub, host.ledger);
      if due == 0 {
        return Err(NotDue);
      }
      var charged := AdvancePeriods(i, due);
      if charged.Err? {
        return Err(charged.error);
      }
      return Ok(due);
    }

    method Cancel(id: u32, caller: Address) returns (r: Result<int>)
      requires Valid()
      modifies this, host`balances
      ensures View() == After(old(View()), S.Cancel(old(View()), id, caller))
      ensures r == Seen(S.Cancel(old(View()), id, caller))
      ensures Valid()
    {
      hide Inv, Transfer, DuePeriodsCapped;
      StepKeeps(View(), OpCancel(id, caller));
      var i := FindIndex(id);
      if i == |subs| {
        return Err(NotFound);
      }
      var sub := subs[i];
      if caller != sub.payer && caller != sub.payee {
        return Err(NotAuthorized);
      }
      if sub.status != Active {
        return Err(WrongStatus);
      }
      var due := DuePeriodsCapped(sub, host.ledger);
      var charged := AdvancePeriods(i, due);
      if charged.Err? {
        return Err(charged.error);
      }
      if subs[i].status == Active {
        subs := subs[i := subs[i].(status := Cancelled, cancelledAt := Some(host.ledger))];
      }
      return Ok(due);
    }
  }
}
