/** The payment channel contract as it is written: storage updated in place,
    one method per entry point, each proved against its transition function. */
module PaymentChannels {
  import opened Base
  import opened Tokens
  import opened Amm
  import opened Oracle
  import opened Voucher
  import M = ChannelModel
  import opened ChannelModel
  import opened ChannelInvariant

  /** The payout's outcomes, in the order they are decided. */
  lemma PayOutCases(s: State, k: Key, amount: int, penalty: int)
    ensures k.channel !in s.channels ==> M.PayOut(s, k, amount, penalty) == Err(ChannelNotFound)
    ensures k.channel in s.channels && k !in s.allocations ==> M.PayOut(s, k, amount, penalty) == Err(NoAllocation)
    ensures k.channel in s.channels && k in s.allocations ==>
              var c, a := s.channels[k.channel], s.allocations[k];
              var due := amount - a.settled + penalty;
              var moved := Transfer(s.world.balances, c.token, s.env.self, k.recipient, due);
              M.PayOut(s, k, amount, penalty)
              == if due < 0 then Err(NothingOwed)
                 else if due > c.collateral then Err(InsufficientCollateral)
                 else if moved.Err? then Err(moved.error)
                 else if c.totalSpent + due > I128_MAX then Err(Overflow)
                 else Ok(s.(world := s.world.(balances := moved.value),
                            channels := s.channels[k.channel := c.(reserved := c.reserved - a.amount,
                                                                   collateral := c.collateral - due,
                                                                   totalSpent := c.totalSpent + due)],
                            allocations := s.allocations[k := Allocation(0, amount + penalty)],
                            journal := s.journal + [Vouchered(k.channel, k.recipient, due)]))
  {
    hide Transfer;
  }

  /** The first hop of a route, and what is left of it. */
  lemma HopStep(s: State, b: Balances, route: seq<Hop>, amount: int, minReceived: int, recipient: Address)
    requires route != []
    ensures var hop, final := route[0], |route| == 1;
            var floor := if final && minReceived > hop.minOut then minReceived else hop.minOut;
            var out := M.SwapAt(s.(world := s.world.(balances := b)), b, hop.venue, hop.from, amount, hop.to, floor,
                                if final then recipient else s.env.self);
            M.ExecuteHops(s, b, route, amount, minReceived, recipient)
            == if out.Err? then Err(out.error)
               else if out.value.1 <= 0 || out.value.1 < floor then Err(MinimumNotMet)
               else M.ExecuteHops(s, out.value.0, route[1..], out.value.1, minReceived, recipient)
  {
    hide Transfer, Swap;
  }

  lemma NoHops(s: State, b: Balances, amount: int, minReceived: int, recipient: Address)
    ensures M.ExecuteHops(s, b, [], amount, minReceived, recipient) == Ok((b, amount))
  {}

  class PaymentChannel {
    const env: Env
    const host: Host
    const venues: map<Address, AmmSwap>
    const feeds: map<Address, PriceOracle>

    var channels: map<u64, Channel>
    var allocations: map<Key, Allocation>
    var settlements: map<Key, Settlement>
    var count: u64
    var amm: Option<Address>
    var oracle: Option<Address>
    ghost var journal: seq<Entry>

    ghost function VenueRates(): map<Address, Amm.Rates>
      reads venues.Values
    {
      map a | a in venues :: venues[a].rates
    }

    ghost function FeedPrices(): map<Address, Feed>
      reads feeds.Values
    {
      map a | a in feeds :: feeds[a].Contents()
    }

    /** The contract's storage and everything it can see around it. */
    ghost function View(): State
      reads this, host, venues.Values, feeds.Values
    {
      State(env, World(host.ledger, host.balances, host.paused, VenueRates(), FeedPrices(), host.foreign),
            channels, allocations, settlements, count, amm, oracle, journal)
    }

    ghost predicate Wired() {
      && (forall a | a in venues :: venues[a].self == a && venues[a].host == host)
      && (forall a | a in feeds :: feeds[a].host == host)
    }

    ghost predicate Valid()
      reads this, host, venues.Values, feeds.Values
    {
      Wired() && Sound(View())
    }

    constructor (env: Env, host: Host, venues: map<Address, AmmSwap>, feeds: map<Address, PriceOracle>)
      requires forall a | a in venues :: venues[a].self == a && venues[a].host == host
      requires forall a | a in feeds :: feeds[a].host == host
      requires Solvent(host.balances)
      ensures this.env == env && this.host == host && this.venues == venues && this.feeds == feeds
      ensures Valid() && Fresh(View())
    {
      this.env, this.host, this.venues, this.feeds := env, host, venues, feeds;
      channels, allocations, settlements, count := map[], map[], map[], 0;
      amm, oracle, journal := None, None, [];
      new;
      FreshIsFine(View());
    }

    // ---- Venue and feed ----

    /** `approved` is what the admin's multisig rules decided. */
    method SetAmm(approved: bool, venue: Address) returns (r: Result<()>)
      requires Valid()
      modifies this`amm
      ensures r.Ok? <==> approved
      ensures View() == if approved then M.Apply(old(View()), OpConfigure(Some(venue), old(oracle))) else old(View())
      ensures Valid()
    {
      hide Sound, VenueRates, FeedPrices;
      StepKeeps(View(), OpConfigure(Some(venue), oracle));
      if !approved {
        return Err(NotAdmin);
      }
      amm := Some(venue);
      return Ok(());
    }

    method SetPriceOracle(approved: bool, feed: Address) returns (r: Result<()>)
      requires Valid()
      modifies this`oracle
      ensures r.Ok? <==> approved
      ensures View() == if approved then M.Apply(old(View()), OpConfigure(old(amm), Some(feed))) else old(View())
      ensures Valid()
    {
      hide Sound, VenueRates, FeedPrices;
      StepKeeps(View(), OpConfigure(amm, Some(feed)));
      if !approved {
        return Err(NotAdmin);
      }
      oracle := Some(feed);
      return Ok(());
    }

    // ---- Opening and paying ----

    method OpenChannel(owner: Address, agent: Address, token: Address, deposit: i128, limit: i128, period: SpendPeriod)
      returns (r: Result<u64>)
      requires Valid()
      modifies this, host`balances
      ensures View() == After(old(View()), M.OpenChannel(old(View()), owner, agent, token, deposit, limit, period))
      ensures r == Seen(M.OpenChannel(old(View()), owner, agent, token, deposit, limit, period))
      ensures Valid()
    {
      hide Sound, Transfer, VenueRates, FeedPrices;
      OutcomeKeeps(View(), OpOpen(owner, agent, token, deposit, limit, period), M.OpenChannel(View(), owner, agent, token, deposit, limit, period));
      if owner == env.self {
        return Err(NotAuthorized);
      }
      if deposit <= 0 {
        return Err(AmountNotPositive);
      }
      if limit <= 0 {
        return Err(LimitNotPositive);
      }
      if limit > deposit {
        return Err(LimitExceedsDeposit);
      }
      var saved := host.balances;
      var moved := host.TransferTokens(token, owner, env.self, deposit);
      if moved.Err? {
        return Err(moved.error);
      }
      if count >= U64_MAX {
        host.balances := saved;
        return Err(Overflow);
      }
      count := count + 1;
      channels := channels[count := Channel(agent, owner, token, limit, period, 0, host.ledger, 0, true,
                                            deposit, 0, None, DEFAULT_DISPUTE_LEDGERS)];
      journal := journal + [Opened(count, deposit, host.ledger)];
      return Ok(count);
    }

    method FindForAgent(id: u64, agent: Address) returns (r: Result<Channel>)
      ensures r == M.FindForAgent(View(), id, agent)
    {
      if id !in channels {
        return Err(ChannelNotFound);
      }
      var c := channels[id];
      if !c.active {
        return Err(ChannelClosed);
      }
      if c.agent != agent {
        return Err(NotAgent);
      }
      return Ok(c);
    }

    /** Resets the period if it has run out, then checks limit and collateral. */
    method BeginSpend(found: Channel, amount: int) returns (r: Result<Channel>)
      ensures r.Ok? <==> RollPeriod(found, host.ledger).Ok? && CheckSpend(RollPeriod(found, host.ledger).value, amount).Ok?
      ensures r.Ok? ==> r.value == RollPeriod(found, host.ledger).value
      ensures r.Err? ==> r.error == if RollPeriod(found, host.ledger).Err? then RollPeriod(found, host.ledger).error
                                    else CheckSpend(RollPeriod(found, host.ledger).value, amount).error
    {
      var c := found;
      var end := c.periodStart + LedgersPerPeriod(c.period);
      if end > U32_MAX {
        return Err(Overflow);
      }
      if host.ledger >= end {
        c := c.(spent := 0, periodStart := host.ledger);
      }
      if c.spent + amount > I128_MAX {
        return Err(Overflow);
      }
      if c.spent + amount > c.limit {
        return Err(SpendLimitExceeded);
      }
      if amount > c.collateral - c.reserved {
        return Err(InsufficientCollateral);
      }
      return Ok(c);
    }

    /** Books a payment whose tokens have moved; `saved` is what to roll back to. */
    method BookDebit(id: u64, found: Channel, amount: int, saved: Balances) returns (r: Result<()>)
      modifies this`channels, this`journal, host`balances
      ensures var before := old(View()).(world := old(View()).world.(balances := saved));
              var debit := Debit(before, id, found, amount, old(host.balances));
              && (r.Ok? <==> debit.Ok?) && (r.Err? ==> r.error == debit.error)
              && View() == if debit.Ok? then debit.value else before
    {
      var c := found;
      if c.totalSpent + amount > I128_MAX {
        host.balances := saved;
        return Err(Overflow);
      }
      c := c.(spent := c.spent + amount, totalSpent := c.totalSpent + amount, collateral := c.collateral - amount);
      channels := channels[id := c];
      journal := journal + [Debited(id, amount, host.ledger)];
      return Ok(());
    }

    method Pay(agent: Address, id: u64, recipient: Address, amount: i128) returns (r: Result<()>)
      requires Valid()
      modifies this, host`balances
      ensures View() == After(old(View()), M.Pay(old(View()), agent, id, recipient, amount))
      ensures r == Seen(M.Pay(old(View()), agent, id, recipient, amount))
      ensures Valid()
    {
      hide Sound, Transfer, VenueRates, FeedPrices;
      OutcomeKeeps(View(), OpPay(agent, id, recipient, amount), M.Pay(View(), agent, id, recipient, amount));
      if host.paused {
        return Err(Paused);
      }
      if agent == env.self {
        return Err(NotAuthorized);
      }
      var found :- FindForAgent(id, agent);
      if amount <= 0 {
        return Err(AmountNotPositive);
      }
      var c :- BeginSpend(found, amount);
      var saved := host.balances;
      var moved := host.TransferTokens(c.token, env.self, recipient, amount);
      if moved.Err? {
        return Err(moved.error);
      }
      var _ :- BookDebit(id, c, amount, saved);
      return Ok(());
    }

    // ---- Converting ----

    method RequireOracleFloor(from: Address, amount: int, to: Address, minReceived: int) returns (r: Result<()>)
      requires Wired()
      ensures r == M.RequireOracleFloor(View(), from, amount, to, minReceived)
    {
      if oracle.None? {
        return Err(NotConfigured);
      }
      if oracle.value !in feeds {
        return Err(InvocationFailed);
      }
      var price :- feeds[oracle.value].Price(from, to);
      if amount * price > I128_MAX {
        return Err(Overflow);
      }
      var expected := amount * price / PRICE_SCALE;
      if expected * (BPS_DENOMINATOR - MAX_SLIPPAGE_BPS) > I128_MAX {
        return Err(Overflow);
      }
      var floor := expected * (BPS_DENOMINATOR - MAX_SLIPPAGE_BPS) / BPS_DENOMINATOR;
      if minReceived < floor {
        return Err(SlippageTooLarge);
      }
      return Ok(());
    }

    method SwapAt(venue: Address, from: Address, amount: int, to: Address, minOut: int, receiver: Address)
      returns (r: Result<int>)
      requires Wired()
      modifies host`balances
      ensures var spec := M.SwapAt(old(View()), old(host.balances), venue, from, amount, to, minOut, receiver);
              r == Seen(spec) && host.balances == After(old(host.balances), spec)
    {
      hide Transfer, Swap;
      var saved := host.balances;
      var pushed := host.TransferTokens(from, env.self, venue, amount);
      if pushed.Err? {
        return Err(pushed.error);
      }
      if venue == env.self {
        host.balances := saved;
        return Err(InvocationFailed);
      }
      if venue in venues {
        r := venues[venue].ExecuteSwap(from, amount, to, minOut, receiver);
      } else {
        r := CallForeign(venue, Call(from, amount, to, minOut, receiver));
      }
      if r.Err? {
        host.balances := saved;
      }
    }

    /** A venue of unknown code moves its own tokens and reports what it likes. */
    method CallForeign(venue: Address, call: Call) returns (r: Result<int>)
      modifies host`balances
      ensures var spec := M.ForeignSwap(old(host.balances), venue, host.foreign, call);
              r == Seen(spec) && host.balances == After(old(host.balances), spec)
    {
      hide Transfer;
      if venue !in host.foreign {
        return Err(InvocationFailed);
      }
      var answer := host.foreign[venue](call);
      if answer.Refuses? {
        return Err(InvocationFailed);
      }
      var paid := host.TransferTokens(call.to, venue, call.receiver, answer.delivered);
      if paid.Err? {
        return Err(paid.error);
      }
      return Ok(answer.reported);
    }

    method ExecuteConversion(from: Address, amount: int, to: Address, minReceived: int, recipient: Address)
      returns (r: Result<int>)
      requires Wired()
      modifies host`balances
      ensures var spec := M.ExecuteConversion(old(View()), from, amount, to, minReceived, recipient);
              r == Seen(spec) && host.balances == After(old(host.balances), spec)
    {
      if amm.None? {
        return Err(NotConfigured);
      }
      var _ :- RequireOracleFloor(from, amount, to, minReceived);
      r := SwapAt(amm.value, from, amount, to, minReceived, recipient);
    }

    method SameAsset(token: Address, amount: int, minReceived: int, recipient: Address) returns (r: Result<int>)
      modifies host`balances
      ensures var spec := M.SameAsset(old(View()), token, amount, minReceived, recipient);
              r == Seen(spec) && host.balances == After(old(host.balances), spec)
    {
      if minReceived > amount {
        return Err(MinimumNotMet);
      }
      var moved := host.TransferTokens(token, env.self, recipient, amount);
      if moved.Err? {
        return Err(moved.error);
      }
      return Ok(amount);
    }

    method PayWithConversion(agent: Address, id: u64, recipient: Address, amount: i128, dest: Address, minReceived: i128)
      returns (r: Result<int>)
      requires Valid()
      modifies this, host`balances
      ensures View() == After(old(View()), M.PayWithConversion(old(View()), agent, id, recipient, amount, dest, minReceived))
      ensures r == Seen(M.PayWithConversion(old(View()), agent, id, recipient, amount, dest, minReceived))
      ensures Valid()
    {
      hide Sound, M.ExecuteConversion, M.SameAsset, VenueRates, FeedPrices;
      OutcomeKeeps(View(), OpConvert(agent, id, recipient, amount, dest, minReceived), M.PayWithConversion(View(), agent, id, recipient, amount, dest, minReceived));
      if host.paused {
        return Err(Paused);
      }
      if agent == env.self {
        return Err(NotAuthorized);
      }
      if amount <= 0 {
        return Err(AmountNotPositive);
      }
      if minReceived < 0 {
        return Err(NegativeMinimum);
      }
      var found :- FindForAgent(id, agent);
      var c :- BeginSpend(found, amount);
      var saved := host.balances;
      var received: int;
      if dest == c.token {
        received :- SameAsset(c.token, amount, minReceived, recipient);
      } else {
        received :- ExecuteConversion(c.token, amount, dest, minReceived, recipient);
      }
      var _ :- BookDebit(id, c, amount, saved);
      return Ok(received);
    }

    /** The validation pass of a route: walks the hops, remembering the assets seen. */
    method CheckRoute(route: seq<Hop>, from: Address, dest: Address) returns (r: Result<()>)
      ensures r == M.CheckRoute(env.self, route, from, dest)
    {
      if route == [] {
        return Err(RouteEmpty);
      }
      if |route| > MAX_ROUTE_HOPS {
        return Err(RouteTooLong);
      }
      var current := from;
      var seen := [from];
      for index := 0 to |route|
        invariant CheckHops(env.self, route[index..], current, seen, dest) == CheckHops(env.self, route, from, [from], dest)
      {
        var hop := route[index];
        assert route[index..][1..] == route[index + 1..];
        if hop.from != current {
          return Err(RouteDiscontinuity);
        }
        if hop.from == hop.to {
          return Err(HopKeepsAsset);
        }
        if hop.minOut < 0 {
          return Err(NegativeMinOut);
        }
        if hop.venue == env.self {
          return Err(VenueIsSelf);
        }
        for i := 0 to |seen|
          invariant hop.to !in seen[..i]
        {
          if seen[i] == hop.to {
            return Err(RouteCycle);
          }
        }
        seen := seen + [hop.to];
        current := hop.to;
      }
      if current != dest {
        return Err(RouteMissesDestination);
      }
      return Ok(());
    }

    /** The execution pass: runs the hops one after another; a failing hop reverts them all. */
    method ExecuteHops(amount: int, route: seq<Hop>, minReceived: int, recipient: Address) returns (r: Result<int>)
      requires Wired()
      modifies host`balances
      ensures var spec := M.ExecuteHops(old(View()), old(host.balances), route, amount, minReceived, recipient);
              r == Seen(spec) && host.balances == After(old(host.balances), spec)
    {
      hide Transfer, Swap, VenueRates, FeedPrices, M.ExecuteHops, M.SwapAt;
      var saved := host.balances;
      ghost var s := View();
      var current := amount;
      for index := 0 to |route|
        invariant M.ExecuteHops(s, host.balances, route[index..], current, minReceived, recipient)
               == M.ExecuteHops(s, saved, route, amount, minReceived, recipient)
      {
        var hop := route[index];
        assert route[index..][1..] == route[index + 1..];
        HopStep(s, host.balances, route[index..], current, minReceived, recipient);
        var final := index + 1 == |route|;
        var receiver := if final then recipient else env.self;
        var floor := if final && minReceived > hop.minOut then minReceived else hop.minOut;
        assert View() == s.(world := s.world.(balances := host.balances));
        var output := SwapAt(hop.venue, hop.from, current, hop.to, floor, receiver);
        if output.Err? {
          host.balances := saved;
          return output;
        }
        if output.value <= 0 || output.value < floor {
          host.balances := saved;
          return Err(MinimumNotMet);
        }
        current := output.value;
      }
      NoHops(s, host.balances, current, minReceived, recipient);
      return Ok(current);
    }

    method ExecuteRoute(from: Address, amount: int, dest: Address, route: seq<Hop>, minReceived: int, recipient: Address)
      returns (r: Result<int>)
      requires Wired()
      modifies host`balances
      ensures var spec := M.ExecuteRoute(old(View()), from, amount, dest, route, minReceived, recipient);
              r == Seen(spec) && host.balances == After(old(host.balances), spec)
    {
      hide Transfer, M.ExecuteHops, M.CheckRoute, M.RequireOracleFloor;
      var _ :- CheckRoute(route, from, dest);
      var _ :- RequireOracleFloor(from, amount, dest, minReceived);
      var saved := host.balances;
      var received :- ExecuteHops(amount, route, minReceived, recipient);
      if received < minReceived {
        host.balances := saved;
        return Err(MinimumNotMet);
      }
      return Ok(received);
    }

    method PayWithRoute(agent: Address, id: u64, recipient: Address, amount: i128, dest: Address, route: seq<Hop>,
                        minReceived: i128, validUntil: u32) returns (r: Result<int>)
      requires Valid()
      modifies this, host`balances
      ensures View() == After(old(View()), M.PayWithRoute(old(View()), agent, id, recipient, amount, dest, route, minReceived, validUntil))
      ensures r == Seen(M.PayWithRoute(old(View()), agent, id, recipient, amount, dest, route, minReceived, validUntil))
      ensures Valid()
    {
      hide Sound, M.ExecuteRoute, M.SameAsset, VenueRates, FeedPrices;
      OutcomeKeeps(View(), OpRoute(agent, id, recipient, amount, dest, route, minReceived, validUntil), M.PayWithRoute(View(), agent, id, recipient, amount, dest, route, minReceived, validUntil));
      if host.paused {
        return Err(Paused);
      }
      if agent == env.self {
        return Err(NotAuthorized);
      }
      if amount <= 0 {
        return Err(AmountNotPositive);
      }
      if minReceived < 0 {
        return Err(NegativeMinimum);
      }
      if host.ledger > validUntil {
        return Err(QuoteExpired);
      }
      var found :- FindForAgent(id, agent);
      var c :- BeginSpend(found, amount);
      var saved := host.balances;
      var received: int;
      if dest == c.token {
        if route != [] {
          return Err(RouteNotEmpty);
        }
        received :- SameAsset(c.token, amount, minReceived, recipient);
      } else {
        received :- ExecuteRoute(c.token, amount, dest, route, minReceived, recipient);
      }
      var _ :- BookDebit(id, c, amount, saved);
      return Ok(received);
    }

    // ---- The owner's side ----

    method FindForOwner(id: u64, owner: Address) returns (r: Result<Channel>)
      ensures r == M.FindForOwner(View(), id, owner)
    {
      if id !in channels {
        return Err(ChannelNotFound);
      }
      if channels[id].owner != owner {
        return Err(NotOwner);
      }
      return Ok(channels[id]);
    }

    method TopUp(owner: Address, id: u64, amount: i128) returns (r: Result<()>)
      requires Valid()
      modifies this, host`balances
      ensures View() == After(old(View()), M.TopUp(old(View()), owner, id, amount))
      ensures r == Seen(M.TopUp(old(View()), owner, id, amount))
      ensures Valid()
    {
      hide Sound, Transfer, VenueRates, FeedPrices;
      OutcomeKeeps(View(), OpTopUp(owner, id, amount), M.TopUp(View(), owner, id, amount));
      if owner == env.self {
        return Err(NotAuthorized);
      }
      var c :- FindForOwner(id, owner);
      if !c.active {
        return Err(ChannelClosed);
      }
      if amount <= 0 {
        return Err(AmountNotPositive);
      }
      var saved := host.balances;
      var moved := host.TransferTokens(c.token, owner, env.self, amount);
      if moved.Err? {
        return Err(moved.error);
      }
      if c.collateral + amount > I128_MAX {
        host.balances := saved;
        return Err(Overflow);
      }
      c := c.(collateral := c.collateral + amount);
      channels := channels[id := c];
      journal := journal + [ToppedUp(id, amount)];
      return Ok(());
    }

    method CloseChannel(owner: Address, id: u64) returns (r: Result<()>)
      requires Valid()
      modifies this, host`balances
      ensures View() == After(old(View()), M.CloseChannel(old(View()), owner, id))
      ensures r == Seen(M.CloseChannel(old(View()), owner, id))
      ensures Valid()
    {
      hide Sound, VenueRates, FeedPrices, M.ReturnFree;
      OutcomeKeeps(View(), OpClose(owner, id), M.CloseChannel(View(), owner, id));
      if owner == env.self {
        return Err(NotAuthorized);
      }
      var c :- FindForOwner(id, owner);
      if c.collateral - c.reserved > 0 {
        var _ :- ReturnFree(id, c, false);
      } else {
        channels := channels[id := c.(active := false)];
      }
      return Ok(());
    }

    /** Sends what is not reserved to the owner; a refused transfer changes nothing. */
    method ReturnFree(id: u64, c: Channel, active: bool) returns (r: Result<()>)
      modifies this`channels, this`journal, host`balances
      ensures r.Ok? == M.ReturnFree(old(View()), id, c, active).Ok?
      ensures r.Ok? ==> View() == M.ReturnFree(old(View()), id, c, active).value
      ensures r.Err? ==> View() == old(View()) && r.error == M.ReturnFree(old(View()), id, c, active).error
    {
      hide Transfer, VenueRates, FeedPrices;
      var free := c.collateral - c.reserved;
      var moved := host.TransferTokens(c.token, env.self, c.owner, free);
      if moved.Err? {
        return Err(moved.error);
      }
      channels := channels[id := c.(collateral := c.collateral - free, active := active)];
      journal := journal + [Returned(id, free)];
      return Ok(());
    }

    method WithdrawFree(owner: Address, id: u64) returns (r: Result<int>)
      requires Valid()
      modifies this, host`balances
      ensures View() == After(old(View()), M.WithdrawFree(old(View()), owner, id))
      ensures r == Seen(M.WithdrawFree(old(View()), owner, id))
      ensures Valid()
    {
      hide Sound, VenueRates, FeedPrices, M.ReturnFree;
      OutcomeKeeps(View(), OpWithdraw(owner, id), M.WithdrawFree(View(), owner, id));
      if owner == env.self {
        return Err(NotAuthorized);
      }
      var c :- FindForOwner(id, owner);
      var free := c.collateral - c.reserved;
      if free <= 0 {
        return Ok(0);
      }
      var _ :- ReturnFree(id, c, c.active);
      return Ok(free);
    }

    // ---- Vouchers ----

    method EnableVouchers(owner: Address, id: u64, signer: Bytes, dispute: u32) returns (r: Result<()>)
      requires Valid()
      modifies this`channels
      ensures View() == After(old(View()), M.EnableVouchers(old(View()), owner, id, signer, dispute))
      ensures r == Seen(M.EnableVouchers(old(View()), owner, id, signer, dispute))
      ensures Valid()
    {
      hide Sound, Transfer, VenueRates, FeedPrices;
      OutcomeKeeps(View(), OpEnable(owner, id, signer, dispute), M.EnableVouchers(View(), owner, id, signer, dispute));
      if owner == env.self {
        return Err(NotAuthorized);
      }
      if dispute < MIN_DISPUTE_LEDGERS {
        return Err(WindowTooShort);
      }
      var c :- FindForOwner(id, owner);
      if !c.active {
        return Err(ChannelClosed);
      }
      c := c.(signer := Some(signer), dispute := dispute);
      channels := channels[id := c];
      return Ok(());
    }

    method Allocate(owner: Address, id: u64, recipient: Address, amount: i128) returns (r: Result<()>)
      requires Valid()
      modifies this`channels, this`allocations
      ensures View() == After(old(View()), M.Allocate(old(View()), owner, id, recipient, amount))
      ensures r == Seen(M.Allocate(old(View()), owner, id, recipient, amount))
      ensures Valid()
    {
      hide Sound, Transfer, VenueRates, FeedPrices;
      OutcomeKeeps(View(), OpAllocate(owner, id, recipient, amount), M.Allocate(View(), owner, id, recipient, amount));
      if owner == env.self {
        return Err(NotAuthorized);
      }
      if amount <= 0 {
        return Err(AmountNotPositive);
      }
      var c :- FindForOwner(id, owner);
      if !c.active {
        return Err(ChannelClosed);
      }
      if c.signer.None? {
        return Err(VouchersDisabled);
      }
      if amount > c.collateral - c.reserved {
        return Err(InsufficientCollateral);
      }
      var k := Key(id, recipient);
      if k in settlements {
        return Err(CloseInFlight);
      }
      var a := if k in allocations then allocations[k] else Allocation(0, 0);
      a := a.(amount := a.amount + amount);
      c := c.(reserved := c.reserved + amount);
      allocations := allocations[k := a];
      channels := channels[id := c];
      return Ok(());
    }

    method VerifyVoucher(c: Channel, k: Key, sequence: u64, amount: i128, signature: Bytes) returns (r: Result<()>)
      ensures r == M.VerifyVoucher(View(), c, k, sequence, amount, signature)
    {
      if c.signer.None? {
        return Err(VouchersDisabled);
      }
      if amount <= 0 {
        return Err(VoucherNotPositive);
      }
      if k !in allocations {
        return Err(NoAllocation);
      }
      var a := allocations[k];
      if amount > a.amount {
        return Err(ExceedsAllocation);
      }
      if amount <= a.settled {
        return Err(AlreadySettled);
      }
      var message := Preimage(env, k.channel, k.recipient, sequence, amount);
      if !env.verify(c.signer.value, message, signature) {
        return Err(BadSignature);
      }
      return Ok(());
    }

    method PayOut(k: Key, amount: int, penalty: int) returns (r: Result<()>)
      modifies this`channels, this`allocations, this`journal, host`balances
      ensures r.Ok? == M.PayOut(old(View()), k, amount, penalty).Ok?
      ensures r.Ok? ==> View() == M.PayOut(old(View()), k, amount, penalty).value
      ensures r.Err? ==> View() == old(View()) && r.error == M.PayOut(old(View()), k, amount, penalty).error
    {
      hide Transfer, VenueRates, FeedPrices, M.PayOut;
      PayOutCases(View(), k, amount, penalty);
      if k.channel !in channels {
        return Err(ChannelNotFound);
      }
      var c := channels[k.channel];
      if k !in allocations {
        return Err(NoAllocation);
      }
      var a := allocations[k];
      var due := amount - a.settled + penalty;
      if due < 0 {
        return Err(NothingOwed);
      }
      if due > c.collateral {
        return Err(InsufficientCollateral);
      }
      var saved := host.balances;
      var moved := host.TransferTokens(c.token, env.self, k.recipient, due);
      if moved.Err? {
        return Err(moved.error);
      }
      if c.totalSpent + due > I128_MAX {
        host.balances := saved;
        return Err(Overflow);
      }
      c := c.(reserved := c.reserved - a.amount, collateral := c.collateral - due, totalSpent := c.totalSpent + due);
      a := Allocation(0, amount + penalty);
      SavePayOut(k, c, a, due);
      return Ok(());
    }

    method SavePayOut(k: Key, c: Channel, a: Allocation, due: int)
      modifies this`channels, this`allocations, this`journal
      ensures View() == old(View()).(
                channels := old(channels)[k.channel := c], allocations := old(allocations)[k := a],
                journal := old(journal) + [Vouchered(k.channel, k.recipient, due)])
    {
      hide VenueRates, FeedPrices;
      allocations := allocations[k := a];
      channels := channels[k.channel := c];
      journal := journal + [Vouchered(k.channel, k.recipient, due)];
    }

    method CloseCooperative(id: u64, recipient: Address, sequence: u64, amount: i128, signature: Bytes) returns (r: Result<int>)
      requires Valid()
      modifies this, host`balances
      ensures View() == After(old(View()), M.CloseCooperative(old(View()), id, recipient, sequence, amount, signature))
      ensures r == Seen(M.CloseCooperative(old(View()), id, recipient, sequence, amount, signature))
      ensures Valid()
    {
      hide Sound, Transfer, VenueRates, FeedPrices, M.VerifyVoucher, M.PayOut;
      OutcomeKeeps(View(), OpCooperative(id, recipient, sequence, amount, signature), M.CloseCooperative(View(), id, recipient, sequence, amount, signature));
      if host.paused {
        return Err(Paused);
      }
      if id !in channels {
        return Err(ChannelNotFound);
      }
      var c := channels[id];
      if c.owner == env.self || recipient == env.self {
        return Err(NotAuthorized);
      }
      var k := Key(id, recipient);
      var _ :- VerifyVoucher(c, k, sequence, amount, signature);
      if k in settlements {
        return Err(CloseInFlight);
      }
      var _ :- PayOut(k, amount, 0);
      return Ok(amount);
    }

    method CloseUnilateral(closer: Address, id: u64, recipient: Address, sequence: u64, amount: i128, signature: Bytes)
      returns (r: Result<()>)
      requires Valid()
      modifies this`settlements
      ensures View() == After(old(View()), M.CloseUnilateral(old(View()), closer, id, recipient, sequence, amount, signature))
      ensures r == Seen(M.CloseUnilateral(old(View()), closer, id, recipient, sequence, amount, signature))
      ensures Valid()
    {
      hide Sound, M.VerifyVoucher, VenueRates, FeedPrices;
      OutcomeKeeps(View(), OpUnilateral(closer, id, recipient, sequence, amount, signature), M.CloseUnilateral(View(), closer, id, recipient, sequence, amount, signature));
      if host.paused {
        return Err(Paused);
      }
      if closer == env.self {
        return Err(NotAuthorized);
      }
      if id !in channels {
        return Err(ChannelNotFound);
      }
      var c := channels[id];
      var k := Key(id, recipient);
      var _ :- VerifyVoucher(c, k, sequence, amount, signature);
      if k in settlements {
        return Err(CloseInFlight);
      }
      var byPayer := closer == c.owner || closer == c.agent;
      settlements := settlements[k := Settlement(sequence, amount, amount, host.ledger, byPayer)];
      return Ok(());
    }

    method Challenge(id: u64, recipient: Address, sequence: u64, amount: i128, signature: Bytes) returns (r: Result<()>)
      requires Valid()
      modifies this`settlements
      ensures View() == After(old(View()), M.Challenge(old(View()), id, recipient, sequence, amount, signature))
      ensures r == Seen(M.Challenge(old(View()), id, recipient, sequence, amount, signature))
      ensures Valid()
    {
      hide Sound, M.VerifyVoucher, VenueRates, FeedPrices;
      OutcomeKeeps(View(), OpChallenge(id, recipient, sequence, amount, signature), M.Challenge(View(), id, recipient, sequence, amount, signature));
      if id !in channels {
        return Err(ChannelNotFound);
      }
      var c := channels[id];
      var k := Key(id, recipient);
      var _ :- VerifyVoucher(c, k, sequence, amount, signature);
      if k !in settlements {
        return Err(NoClose);
      }
      var st := settlements[k];
      if st.openedAt + c.dispute > U32_MAX {
        return Err(Overflow);
      }
      if host.ledger >= st.openedAt + c.dispute {
        return Err(ChallengeOver);
      }
      if !Supersedes(amount, st.best) {
        return Err(NotSuperseding);
      }
      st := st.(bestSequence := sequence, best := amount);
      settlements := settlements[k := st];
      return Ok(());
    }

    method Finalize(id: u64, recipient: Address) returns (r: Result<int>)
      requires Valid()
      modifies this, host`balances
      ensures View() == After(old(View()), M.Finalize(old(View()), id, recipient))
      ensures r == Seen(M.Finalize(old(View()), id, recipient))
      ensures Valid()
    {
      hide Sound, M.PayOut, Transfer, VenueRates, FeedPrices;
      OutcomeKeeps(View(), OpFinalize(id, recipient), M.Finalize(View(), id, recipient));
      if id !in channels {
        return Err(ChannelNotFound);
      }
      var c := channels[id];
      var k := Key(id, recipient);
      if k !in settlements {
        return Err(NoClose);
      }
      var st := settlements[k];
      if st.openedAt + c.dispute > U32_MAX {
        return Err(Overflow);
      }
      if host.ledger < st.openedAt + c.dispute {
        return Err(WindowOpen);
      }
      if k !in allocations {
        return Err(NoAllocation);
      }
      var penalty := 0;
      if st.byPayer && st.best > st.first {
        var understatement := st.best - st.first;
        var reclaimable := allocations[k].amount - st.best;
        penalty := if understatement < reclaimable then understatement else reclaimable;
      }
      var saved := settlements;
      settlements := settlements - {k};
      var paid := PayOut(k, st.best, penalty);
      if paid.Err? {
        settlements := saved;
        return Err(paid.error);
      }
      return Ok(st.best + penalty);
    }
  }
}
