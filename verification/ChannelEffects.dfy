/** What each transaction does, in the caller's terms: when it goes through, every
    balance it moves, and what it leaves in the records it writes. */
module ChannelEffects {
  import opened Base
  import opened Tokens
  import opened Voucher
  import opened Amm
  import opened Oracle
  import opened ChannelModel
  import opened ChannelInvariant
  import Keys = ChannelKeys
  import Routes = ChannelRoutes

  /** A transfer that can be made: covered, and fitting where it goes. */
  predicate Payable(b: Balances, token: Address, from: Address, to: Address, amount: int) {
    0 <= amount <= BalanceOf(b, token, from) && (from == to || BalanceOf(b, token, to) + amount <= I128_MAX)
  }

  lemma PayableIff(b: Balances, token: Address, from: Address, to: Address, amount: int)
    requires Solvent(b)
    ensures Transfer(b, token, from, to, amount).Ok? <==> Payable(b, token, from, to, amount)
    ensures Transfer(b, token, from, to, amount).Ok? ==>
              Transferred(b, Transfer(b, token, from, to, amount).value, token, from, to, amount)
  {
    hide BalanceOf;
  }

  /** Only this channel's record and the token balances have changed; the journal
      aside, which no entry point reads. */
  ghost predicate OnlyChannel(s: State, s': State, id: u64) {
    && s' == s.(world := s.world.(balances := s'.world.balances), channels := s'.channels, count := s'.count, journal := s'.journal)
    && id in s'.channels && s'.channels.Keys == s.channels.Keys + {id}
    && forall x | x in s.channels && x != id :: s'.channels[x] == s.channels[x]
  }

  // ---- The owner's side ----

  /** Opening takes the deposit from the owner and stores the terms as given. */
  lemma OpenDoes(s: State, owner: Address, agent: Address, token: Address, deposit: i128, limit: i128, period: SpendPeriod)
    requires Sound(s)
    ensures var r := OpenChannel(s, owner, agent, token, deposit, limit, period);
            && (r.Ok? <==> owner != s.env.self && 0 < limit <= deposit && s.count < 0xFFFF_FFFF_FFFF_FFFF
                           && Payable(s.world.balances, token, owner, s.env.self, deposit))
            && (r.Ok? ==>
                  var (s', id) := r.value;
                  && id !in s.channels && id == s.count + 1 == s'.count && OnlyChannel(s, s', id)
                  && Transferred(s.world.balances, s'.world.balances, token, owner, s.env.self, deposit)
                  && var c := s'.channels[id];
                     && c.owner == owner && c.agent == agent && c.token == token && c.limit == limit && c.period == period
                     && c.collateral == deposit && c.reserved == c.spent == c.totalSpent == 0
                     && c.active && c.periodStart == s.world.ledger && c.signer.None? && c.dispute == 17_280)
  {
    hide Transfer, ChannelInvariant.Rates.Paced, AllocationsOk, SettlementsOk, JournalOk, Reserved, Books, Telescoped;
    PayableIff(s.world.balances, token, owner, s.env.self, deposit);
    hide Solvent, Payable, Transferred;
  }

  /** A top-up takes `amount` from the owner and adds it to the collateral. */
  lemma TopUpDoes(s: State, owner: Address, id: u64, amount: i128)
    requires Sound(s)
    ensures var r := TopUp(s, owner, id, amount);
            && (r.Ok? <==> owner != s.env.self && id in s.channels && s.channels[id].owner == owner && s.channels[id].active
                           && 0 < amount && s.channels[id].collateral + amount <= I128_MAX
                           && Payable(s.world.balances, s.channels[id].token, owner, s.env.self, amount))
            && (r.Ok? ==>
                  var s', c := r.value.0, s.channels[id];
                  && OnlyChannel(s, s', id) && s'.channels[id] == c.(collateral := c.collateral + amount)
                  && Transferred(s.world.balances, s'.world.balances, c.token, owner, s.env.self, amount))
  {
    hide Transfer, Sound;
    BalancesAreSolvent(s);
    if id in s.channels {
      PayableIff(s.world.balances, s.channels[id].token, owner, s.env.self, amount);
    }
    hide Solvent, Payable, Transferred;
  }

  /** What nobody has reserved goes back to the owner, and only that. */
  ghost predicate FreeReturned(s: State, s': State, id: u64)
    requires id in s.channels
  {
    var c := s.channels[id];
    var free := c.collateral - c.reserved;
    && OnlyChannel(s, s', id)
    && s'.channels[id] == c.(collateral := c.reserved, active := s'.channels[id].active)
    && Transferred(s.world.balances, s'.world.balances, c.token, s.env.self, c.owner, free)
  }

  lemma NothingTransferred(b: Balances, token: Address, from: Address, to: Address)
    ensures Transferred(b, b, token, from, to, 0)
  {}

  lemma ReturnFreeDoes(s: State, id: u64, active: bool)
    requires Sound(s) && id in s.channels && s.channels[id].reserved < s.channels[id].collateral
    ensures var c := s.channels[id];
            var r := ReturnFree(s, id, c, active);
            && (r.Ok? <==> Payable(s.world.balances, c.token, s.env.self, c.owner, c.collateral - c.reserved))
            && (r.Ok? ==> FreeReturned(s, r.value, id) && r.value.channels[id].active == active)
  {
    hide Transfer, Sound;
    BalancesAreSolvent(s);
    var c := s.channels[id];
    PayableIff(s.world.balances, c.token, s.env.self, c.owner, c.collateral - c.reserved);
    hide Solvent, Payable, Transferred;
  }

  /** A withdrawal reports and returns exactly the free collateral. */
  lemma WithdrawDoes(s: State, owner: Address, id: u64)
    requires Sound(s)
    ensures var r := WithdrawFree(s, owner, id);
            && (r.Ok? <==> owner != s.env.self && id in s.channels && s.channels[id].owner == owner
                           && var c := s.channels[id];
                              (c.reserved == c.collateral
                               || Payable(s.world.balances, c.token, s.env.self, owner, c.collateral - c.reserved)))
            && (r.Ok? ==>
                  && FreeReturned(s, r.value.0, id) && r.value.1 == s.channels[id].collateral - s.channels[id].reserved
                  && r.value.0.channels[id].active == s.channels[id].active)
  {
    hide Sound, ReturnFree, Transfer, Payable, Transferred;
    if id in s.channels {
      ChannelFacts(s, id);
      hide ChannelInvariant.Rates.Paced;
      var c := s.channels[id];
      NothingTransferred(s.world.balances, c.token, s.env.self, c.owner);
      if c.reserved < c.collateral {
        ReturnFreeDoes(s, id, c.active);
      }
    }
  }

  /** Closing does the same and deactivates the channel. */
  lemma CloseDoes(s: State, owner: Address, id: u64)
    requires Sound(s)
    ensures var r := CloseChannel(s, owner, id);
            && (r.Ok? <==> owner != s.env.self && id in s.channels && s.channels[id].owner == owner
                           && var c := s.channels[id];
                              (c.reserved == c.collateral
                               || Payable(s.world.balances, c.token, s.env.self, owner, c.collateral - c.reserved)))
            && (r.Ok? ==> FreeReturned(s, r.value.0, id) && !r.value.0.channels[id].active)
  {
    hide Sound, ReturnFree, Transfer, Payable, Transferred;
    if id in s.channels {
      ChannelFacts(s, id);
      hide ChannelInvariant.Rates.Paced;
      var c := s.channels[id];
      NothingTransferred(s.world.balances, c.token, s.env.self, c.owner);
      if c.reserved < c.collateral {
        ReturnFreeDoes(s, id, false);
      }
    }
  }

  /** Enabling vouchers sets the key and the window as given, on an active channel of
      the caller, for windows of at least 720 ledgers; nothing else changes. */
  lemma EnableDoes(s: State, owner: Address, id: u64, signer: Bytes, dispute: u32)
    ensures var r := EnableVouchers(s, owner, id, signer, dispute);
            && (r.Ok? <==> owner != s.env.self && id in s.channels && s.channels[id].owner == owner && s.channels[id].active
                           && 720 <= dispute)
            && (r.Ok? ==>
                  var s' := r.value.0;
                  OnlyChannel(s, s', id) && s'.world == s.world && s'.journal == s.journal
                  && s'.channels[id] == s.channels[id].(signer := Some(signer), dispute := dispute))
  {}

  /** An allocation reserves `amount` more for one recipient out of what is free. */
  lemma AllocateDoes(s: State, owner: Address, id: u64, recipient: Address, amount: i128)
    ensures var r, k := Allocate(s, owner, id, recipient, amount), Key(id, recipient);
            && (r.Ok? <==> owner != s.env.self && id in s.channels && k !in s.settlements && 0 < amount
                           && var c := s.channels[id];
                              c.owner == owner && c.active && c.signer.Some? && amount <= c.collateral - c.reserved)
            && (r.Ok? ==>
                  var s', c := r.value.0, s.channels[id];
                  && OnlyChannel(s.(allocations := s'.allocations), s', id) && s'.world == s.world && s'.journal == s.journal
                  && s'.channels[id] == c.(reserved := c.reserved + amount)
                  && s'.allocations.Keys == s.allocations.Keys + {k}
                  && (forall x | x in s.allocations && x != k :: s'.allocations[x] == s.allocations[x])
                  && s'.allocations[k].amount == amount + (if k in s.allocations then s.allocations[k].amount else 0)
                  && s'.allocations[k].settled == if k in s.allocations then s.allocations[k].settled else 0)
  {}

  // ---- Paying on chain ----

  /** The channel after spending `amount`: a new period starts once the old one, one
      ledger, an hour of 720 or a day of 17280, has run its length. */
  ghost predicate Spent(c: Channel, c': Channel, now: int, amount: int) {
    var length := match c.period case PerLedger => 1 case Hourly => 720 case Daily => 17_280;
    var over := now >= c.periodStart + length;
    var spent := (if over then 0 else c.spent) + amount;
    && spent <= c.limit && 0 < amount <= c.collateral - c.reserved && c.active
    && c' == c.(spent := spent, periodStart := if over then now else c.periodStart,
                totalSpent := c.totalSpent + amount, collateral := c.collateral - amount)
  }

  /** A payment sends exactly `amount` of the channel's token to the recipient. */
  lemma PayDoes(s: State, agent: Address, id: u64, recipient: Address, amount: i128)
    requires Pay(s, agent, id, recipient, amount).Ok?
    ensures var s' := Pay(s, agent, id, recipient, amount).value.0;
            && !s.world.paused && id in s.channels && s.channels[id].agent == agent && OnlyChannel(s, s', id)
            && Spent(s.channels[id], s'.channels[id], s.world.ledger, amount)
            && Transferred(s.world.balances, s'.world.balances, s.channels[id].token, s.env.self, recipient, amount)
  {
    hide BalanceOf;
  }

  /** A conversion to the channel's own token is a payment. */
  lemma SameTokenConversionDoes(s: State, agent: Address, id: u64, recipient: Address, amount: i128, dest: Address, minReceived: i128)
    requires id in s.channels && s.channels[id].token == dest
    ensures var r := PayWithConversion(s, agent, id, recipient, amount, dest, minReceived);
            && (r.Ok? <==> Pay(s, agent, id, recipient, amount).Ok? && 0 <= minReceived <= amount)
            && (r.Ok? ==> r.value.0 == Pay(s, agent, id, recipient, amount).value.0 && r.value.1 == amount)
  {
    hide Transfer, CheckSpend, Debit, ExecuteConversion, ExecuteRoute;
  }

  /** So is a route to it, which must be empty and not past its ledger. */
  lemma SameTokenRouteDoes(s: State, agent: Address, id: u64, recipient: Address, amount: i128, dest: Address,
                           route: seq<Hop>, minReceived: i128, validUntil: u32)
    requires id in s.channels && s.channels[id].token == dest
    ensures var r := PayWithRoute(s, agent, id, recipient, amount, dest, route, minReceived, validUntil);
            && (r.Ok? <==> Pay(s, agent, id, recipient, amount).Ok? && 0 <= minReceived <= amount
                           && route == [] && s.world.ledger <= validUntil)
            && (r.Ok? ==> r.value.0 == Pay(s, agent, id, recipient, amount).value.0 && r.value.1 == amount)
  {
    hide Transfer, CheckSpend, Debit, ExecuteConversion, ExecuteRoute;
  }

  /** What a conversion to another token books, and what it must have met. */
  lemma ConversionBooks(s: State, agent: Address, id: u64, recipient: Address, amount: i128, dest: Address, minReceived: i128)
    requires PayWithConversion(s, agent, id, recipient, amount, dest, minReceived).Ok?
    ensures var s' := PayWithConversion(s, agent, id, recipient, amount, dest, minReceived).value.0;
            && !s.world.paused && id in s.channels && s.channels[id].agent == agent && OnlyChannel(s, s', id)
            && Spent(s.channels[id], s'.channels[id], s.world.ledger, amount) && 0 <= minReceived
  {
    hide ExecuteConversion, SameAsset;
  }

  lemma RouteBooks(s: State, agent: Address, id: u64, recipient: Address, amount: i128, dest: Address,
                   route: seq<Hop>, minReceived: i128, validUntil: u32)
    requires PayWithRoute(s, agent, id, recipient, amount, dest, route, minReceived, validUntil).Ok?
    ensures var s' := PayWithRoute(s, agent, id, recipient, amount, dest, route, minReceived, validUntil).value.0;
            && !s.world.paused && id in s.channels && s.channels[id].agent == agent && OnlyChannel(s, s', id)
            && Spent(s.channels[id], s'.channels[id], s.world.ledger, amount)
            && 0 <= minReceived && s.world.ledger <= validUntil
  {
    hide ExecuteRoute, SameAsset;
  }

  /** The floor under a conversion is 95% of the fair value, up to its two roundings,
      and exactly the minima at or above it at a fresh price pass. */
  lemma FloorIsNinetyFivePercent(s: State, from: Address, amount: int, to: Address, minReceived: int)
    requires 0 < amount && from != to
    ensures RequireOracleFloor(s, from, amount, to, minReceived).Ok? <==>
              && s.oracle.Some? && s.oracle.value in s.world.feeds
              && var feed := s.world.feeds[s.oracle.value];
                 && Pair(from, to) in feed.prices && s.world.ledger - feed.prices[Pair(from, to)].ledger <= feed.maxAge
                 && var price := feed.prices[Pair(from, to)].price;
                    && amount * price <= I128_MAX && amount * price / 10_000_000 * 9500 <= I128_MAX
                    && OracleFloor(amount, price) <= minReceived
    ensures forall price: Positive ::
              var floor := OracleFloor(amount, price);
              100 * 10_000_000 * floor <= 95 * amount * price < 100 * 10_000_000 * (floor + 2)
  {
    forall price: Positive
      ensures var floor := OracleFloor(amount, price);
              100 * 10_000_000 * floor <= 95 * amount * price < 100 * 10_000_000 * (floor + 2)
    {
      FloorBounds(amount, price);
      Routes.FloorAllowsFivePercent(amount, price, OracleFloor(amount, price));
    }
    hide OracleFloor;
  }

  lemma FloorBounds(amount: int, price: int)
    requires 0 < amount && 0 < price
    ensures 100 * PRICE_SCALE * OracleFloor(amount, price) <= 95 * amount * price
  {
    var fair := amount * price / PRICE_SCALE;
    assert fair * PRICE_SCALE <= amount * price;
    assert OracleFloor(amount, price) * 10_000 <= fair * 9500;
    assert 95 * (amount * price) == 95 * amount * price;
  }

  // ---- Vouchers ----

  /** What a payout moves and leaves: `total` less what was settled goes to the
      recipient, the whole reservation is released, and `total` is settled. */
  ghost predicate Settled(s: State, s': State, k: Key, total: int)
    requires k in s.allocations && k.channel in s.channels
  {
    var c, a := s.channels[k.channel], s.allocations[k];
    var due := total - a.settled;
    && OnlyChannel(s.(allocations := s'.allocations, settlements := s'.settlements), s', k.channel)
    && 0 <= due <= c.collateral
    && s'.channels[k.channel] == c.(reserved := c.reserved - a.amount, collateral := c.collateral - due,
                                    totalSpent := c.totalSpent + due)
    && s'.allocations.Keys == s.allocations.Keys && s'.allocations[k] == Allocation(0, total)
    && (forall x | x in s.allocations && x != k :: s'.allocations[x] == s.allocations[x])
    && Transferred(s.world.balances, s'.world.balances, c.token, s.env.self, k.recipient, due)
  }

  lemma PayOutDoes(s: State, k: Key, amount: int, penalty: int)
    requires PayOut(s, k, amount, penalty).Ok?
    ensures k in s.allocations && k.channel in s.channels
    ensures Settled(s, PayOut(s, k, amount, penalty).value, k, amount + penalty)
    ensures PayOut(s, k, amount, penalty).value.settlements == s.settlements
  {
    hide BalanceOf;
  }

  /** A cooperative close settles exactly the voucher's amount, for a voucher good
      under the key in force and both parties' consent. */
  lemma CooperativeDoes(s: State, id: u64, recipient: Address, sequence: u64, amount: i128, signature: Bytes)
    requires CloseCooperative(s, id, recipient, sequence, amount, signature).Ok?
    ensures var (s', paid) := CloseCooperative(s, id, recipient, sequence, amount, signature).value;
            var k := Key(id, recipient);
            && !s.world.paused && id in s.channels && k in s.allocations && k !in s.settlements
            && VerifyVoucher(s, s.channels[id], k, sequence, amount, signature).Ok?
            && Settled(s, s', k, amount) && s'.settlements == s.settlements && paid == amount
  {
    hide PayOut, VerifyVoucher, Settled;
    PayOutDoes(s, Key(id, recipient), amount, 0);
  }

  /** A unilateral close goes through for any closer with a good voucher, moves no
      money, and records who closed: the payer's side is the owner and the agent. */
  lemma UnilateralDoes(s: State, closer: Address, id: u64, recipient: Address, sequence: u64, amount: i128, signature: Bytes)
    ensures var r, k := CloseUnilateral(s, closer, id, recipient, sequence, amount, signature), Key(id, recipient);
            && (r.Ok? <==> !s.world.paused && closer != s.env.self && id in s.channels && k !in s.settlements
                           && VerifyVoucher(s, s.channels[id], k, sequence, amount, signature).Ok?)
            && (r.Ok? ==>
                  var s', c := r.value.0, s.channels[id];
                  && s' == s.(settlements := s'.settlements) && s'.settlements.Keys == s.settlements.Keys + {k}
                  && (forall x | x in s.settlements && x != k :: s'.settlements[x] == s.settlements[x])
                  && var st := s'.settlements[k];
                     && st.first == st.best == amount && st.bestSequence == sequence && st.openedAt == s.world.ledger
                     && (st.byPayer <==> closer in {c.owner, c.agent}))
  {
    hide VerifyVoucher;
  }

  /** A challenge goes through for a larger good voucher within the window, and
      changes only the best claim. */
  lemma ChallengeDoes(s: State, id: u64, recipient: Address, sequence: u64, amount: i128, signature: Bytes)
    ensures var r, k := Challenge(s, id, recipient, sequence, amount, signature), Key(id, recipient);
            && (r.Ok? <==> id in s.channels && k in s.settlements
                           && VerifyVoucher(s, s.channels[id], k, sequence, amount, signature).Ok?
                           && s.world.ledger < s.settlements[k].openedAt + s.channels[id].dispute <= U32_MAX
                           && s.settlements[k].best < amount)
            && (r.Ok? ==>
                  var s' := r.value.0;
                  && s' == s.(settlements := s'.settlements) && s'.settlements.Keys == s.settlements.Keys
                  && (forall x | x in s.settlements && x != k :: s'.settlements[x] == s.settlements[x])
                  && s'.settlements[k] == s.settlements[k].(best := amount, bestSequence := sequence))
  {
    hide VerifyVoucher;
  }

  /** A finalization settles the best voucher and, if the payer's side opened with
      less, as much again as it understated, as far as the allocation reaches. */
  lemma FinalizeDoes(s: State, id: u64, recipient: Address)
    requires Finalize(s, id, recipient).Ok?
    ensures var (s', paid) := Finalize(s, id, recipient).value;
            var k := Key(id, recipient);
            && k in s.settlements && k in s.allocations && id in s.channels
            && s.settlements[k].openedAt + s.channels[id].dispute <= s.world.ledger
            && Settled(s, s', k, paid) && s'.settlements == s.settlements - {k}
            && var st, a := s.settlements[k], s.allocations[k];
               paid == if st.byPayer && st.first < st.best then Min(2 * st.best - st.first, a.amount) else st.best
  {
    hide PayOut, Settled;
    var k := Key(id, recipient);
    var st := s.settlements[k];
    PayOutDoes(s.(settlements := s.settlements - {k}), k, st.best, Penalty(s.allocations[k].amount, st));
    SettledAside(s, Finalize(s, id, recipient).value.0, k, Finalize(s, id, recipient).value.1);
  }

  lemma SettledAside(s: State, s': State, k: Key, total: int)
    requires k in s.allocations && k.channel in s.channels
    requires Settled(s.(settlements := s.settlements - {k}), s', k, total)
    ensures Settled(s, s', k, total)
  {}
}
