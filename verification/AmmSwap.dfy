/** The admin-rate-quoted swap venue that conversions run against. */
module Amm {
  import opened Base
  import opened Arithmetic
  import opened Tokens

  const RATE_SCALE: int := 10_000_000

  datatype Pair = Pair(from: Address, to: Address)

  type Rates = map<Pair, Positive>

  /** Units of `to` paid for `amount` units of `from`, rounded down. */
  function Quote(rates: Rates, from: Address, amount: int, to: Address): (r: Result<int>)
    ensures r.Ok? <==> amount > 0 && Pair(from, to) in rates && amount * rates[Pair(from, to)] <= I128_MAX
    ensures r.Ok? ==>
              && Pair(from, to) in rates
              && 0 <= r.value <= I128_MAX
              && r.value * 10_000_000 <= amount * rates[Pair(from, to)] < (r.value + 1) * 10_000_000
  {
    var _ :- Need(amount > 0, AmountNotPositive);
    var _ :- Need(Pair(from, to) in rates, NoRate);
    var product := amount * rates[Pair(from, to)];
    var _ :- Need(product <= I128_MAX, Overflow);
    Ok(product / RATE_SCALE)
  }

  /** Pays the quote out of the venue's reserve, or reverts below `minOut`. */
  function Swap(b: Balances, venue: Address, rates: Rates,
                from: Address, amount: int, to: Address, minOut: int, receiver: Address)
    : (r: Result<(Balances, int)>)
    ensures r.Ok? ==>
              && minOut <= r.value.1
              && Quote(rates, from, amount, to) == Ok(r.value.1)
              && Transfer(b, to, venue, receiver, r.value.1) == Ok(r.value.0)
  {
    var _ :- Need(amount > 0, AmountNotPositive);
    var out :- Quote(rates, from, amount, to);
    var _ :- Need(minOut <= out, MinimumNotMet);
    var paid :- Transfer(b, to, venue, receiver, out);
    Ok((paid, out))
  }

  /** Rates that multiply to at most one leave nothing to gain from swapping
      there and back: rounding always favours the venue. */
  lemma RoundTripNeverProfits(rates: Rates, a: Address, b: Address, amount: int, there: int, back: int)
    requires Quote(rates, a, amount, b) == Ok(there)
    requires Quote(rates, b, there, a) == Ok(back)
    requires rates[Pair(a, b)] * rates[Pair(b, a)] <= RATE_SCALE * RATE_SCALE
    ensures back <= amount
  {
    var x, y := rates[Pair(a, b)], rates[Pair(b, a)];
    calc {
      back * RATE_SCALE * RATE_SCALE;
    <=
      there * y * RATE_SCALE;
    ==
      (there * RATE_SCALE) * y;
    <=  { MulLe(there * RATE_SCALE, amount * x, y); }
      (amount * x) * y;
    ==  { assert (amount * x) * y == amount * (x * y); }
      amount * (x * y);
    <=  { MulLe(x * y, RATE_SCALE * RATE_SCALE, amount); }
      (RATE_SCALE * RATE_SCALE) * amount;
    }
  }

  class AmmSwap {
    const self: Address
    const host: Host
    var admin: Option<Address>
    var rates: Rates

    constructor (self: Address, host: Host)
      ensures this.self == self && this.host == host && admin == None && rates == map[]
    {
      this.self, this.host, admin, rates := self, host, None, map[];
    }

    predicate IsAdmin(caller: Address)
      reads this
    {
      admin == Some(caller)
    }

    method Initialize(caller: Address) returns (r: Result<()>)
      modifies this`admin
      ensures r.Ok? <==> old(admin).None?
      ensures admin == if r.Ok? then Some(caller) else old(admin)
    {
      if admin.Some? {
        return Err(AlreadyInitialized);
      }
      admin := Some(caller);
      return Ok(());
    }

    /** Only the admin moves the rates; a pair never gets a rate of zero or less. */
    method SetRate(caller: Address, from: Address, to: Address, rate: i128) returns (r: Result<()>)
      modifies this`rates
      ensures r.Ok? <==> IsAdmin(caller) && rate > 0
      ensures rates == if r.Ok? then old(rates)[Pair(from, to) := rate] else old(rates)
    {
      if !IsAdmin(caller) {
        return Err(NotAdmin);
      }
      if rate <= 0 {
        return Err(AmountNotPositive);
      }
      rates := rates[Pair(from, to) := rate];
      return Ok(());
    }

    method Fund(caller: Address, token: Address, amount: i128) returns (r: Result<()>)
      modifies host`balances
      ensures r.Ok? <==> IsAdmin(caller) && Transfer(old(host.balances), token, caller, self, amount).Ok?
      ensures r.Ok? ==> host.balances == Transfer(old(host.balances), token, caller, self, amount).value
      ensures r.Err? ==> host.balances == old(host.balances)
    {
      if !IsAdmin(caller) {
        return Err(NotAdmin);
      }
      r := host.TransferTokens(token, caller, self, amount);
    }

    method ExecuteSwap(from: Address, amount: int, to: Address, minOut: int, receiver: Address)
      returns (r: Result<int>)
      modifies host`balances
      ensures r == Seen(Swap(old(host.balances), self, rates, from, amount, to, minOut, receiver))
      ensures host.balances
           == After(old(host.balances), Swap(old(host.balances), self, rates, from, amount, to, minOut, receiver))
    {
      if amount <= 0 {
        return Err(AmountNotPositive);
      }
      var out := Quote(rates, from, amount, to);
      if out.Err? {
        return out;
      }
      if out.value < minOut {
        return Err(MinimumNotMet);
      }
      var moved := host.TransferTokens(to, self, receiver, out.value);
      if moved.Err? {
        return Err(moved.error);
      }
      return out;
    }
  }
}
