/** Converted payments: which routes are accepted, what they move, and the
    floor under what the recipient gets. */
module ChannelRoutes {
  import opened Base
  import opened Tokens
  import opened Amm
  import opened Oracle
  import opened ChannelModel

  // ---- Which routes are accepted ----

  function Tos(route: seq<Hop>): seq<Address> {
    seq(|route|, i requires 0 <= i < |route| => route[i].to)
  }

  /** The assets a route visits, the starting one included. */
  function TokenPath(from: Address, route: seq<Hop>): seq<Address> {
    [from] + Tos(route)
  }

  ghost predicate Distinct<T(!new)>(xs: seq<T>) {
    forall i, j | 0 <= i < j < |xs| :: xs[i] != xs[j]
  }

  ghost predicate Chained(from: Address, route: seq<Hop>) {
    forall i | 0 <= i < |route| :: route[i].from == TokenPath(from, route)[i]
  }

  ghost predicate HopsGuarded(self: Address, route: seq<Hop>) {
    forall h | h in route :: h.minOut >= 0 && h.venue != self
  }

  /** A path through the assets that never returns to one and ends at `dest`. */
  ghost predicate SimplePath(from: Address, route: seq<Hop>, dest: Address) {
    && 1 <= |route| <= 4
    && Chained(from, route)
    && Distinct(TokenPath(from, route))
    && route[|route| - 1].to == dest
  }

  lemma {:induction false} HopsAccepted(self: Address, route: seq<Hop>, current: Address, seen: seq<Address>, dest: Address)
    requires Distinct(seen) && seen != [] && seen[|seen| - 1] == current
    ensures CheckHops(self, route, current, seen, dest).Ok?
            <==> Chained(current, route) && HopsGuarded(self, route) && Distinct(seen + Tos(route))
                 && (seen + Tos(route))[|seen| + |route| - 1] == dest
    decreases |route|
  {
    if route == [] {
      assert seen + Tos(route) == seen;
    } else {
      var hop, rest := route[0], route[1..];
      var all := seen + Tos(route);
      assert all[|seen|] == hop.to;
      assert route == [hop] + rest;
      assert HopsGuarded(self, route) <==> hop.minOut >= 0 && hop.venue != self && HopsGuarded(self, rest);
      ChainedTail(current, route);
      assert seen + [hop.to] + Tos(rest) == all;
      if hop.to in seen {
        var i :| 0 <= i < |seen| && seen[i] == hop.to;
        assert all[i] == all[|seen|];
      } else {
        HopsAccepted(self, rest, hop.to, seen + [hop.to], dest);
      }
    }
  }

  lemma ChainedTail(from: Address, route: seq<Hop>)
    requires route != []
    ensures Chained(from, route) <==> route[0].from == from && Chained(route[0].to, route[1..])
  {
    var rest := route[1..];
    assert forall i | 0 <= i < |rest| :: TokenPath(route[0].to, rest)[i] == TokenPath(from, route)[i + 1];
    if Chained(from, route) {
      forall i | 0 <= i < |rest|
        ensures rest[i].from == TokenPath(route[0].to, rest)[i]
      {
        assert rest[i] == route[i + 1];
      }
    }
    if route[0].from == from && Chained(route[0].to, rest) {
      forall i | 0 <= i < |route|
        ensures route[i].from == TokenPath(from, route)[i]
      {
        if i > 0 {
          assert rest[i - 1].from == TokenPath(route[0].to, rest)[i - 1];
        }
      }
    }
  }

  /** Route validation accepts exactly the simple token paths of one to four
      hops whose hops pass the venue and minimum guards. */
  lemma RouteAccepted(self: Address, route: seq<Hop>, from: Address, dest: Address)
    ensures CheckRoute(self, route, from, dest).Ok?
            <==> SimplePath(from, route, dest) && HopsGuarded(self, route)
  {
    if 1 <= |route| <= MAX_ROUTE_HOPS {
      HopsAccepted(self, route, from, [from], dest);
    }
  }

  // ---- What an executed route moves ----

  ghost predicate Bystander(route: seq<Hop>, who: Address) {
    forall h | h in route :: h.venue != who
  }

  /** What a venue answers: an `AmmSwap` delivers what it reports, any other venue
      answers as it likes. */
  function AnswerAt(s: State, venue: Address, call: Call): Answer {
    if venue in s.world.venues then
      var quoted := Quote(s.world.venues[venue], call.from, call.amount, call.to);
      if quoted.Ok? then Answers(quoted.value, quoted.value) else Refuses
    else if venue in s.world.foreign then s.world.foreign[venue](call)
    else Refuses
  }

  /** The call the first hop of a route makes when `amount` goes in. */
  function CallOf(s: State, route: seq<Hop>, amount: int, minReceived: int, recipient: Address): Call
    requires route != []
  {
    var hop, final := route[0], |route| == 1;
    Call(hop.from, amount, hop.to, if final && minReceived > hop.minOut then minReceived else hop.minOut,
         if final then recipient else s.env.self)
  }

  function FirstAnswer(s: State, route: seq<Hop>, amount: int, minReceived: int, recipient: Address): Answer
    requires route != []
  {
    AnswerAt(s, route[0].venue, CallOf(s, route, amount, minReceived, recipient))
  }

  /** What the venues before the last report of a token but do not deliver. */
  function Shortfall(s: State, route: seq<Hop>, amount: int, minReceived: int, recipient: Address, token: Address): int
    decreases |route|
  {
    if |route| <= 1 then 0
    else
      var answer := FirstAnswer(s, route, amount, minReceived, recipient);
      if answer.Refuses? then 0
      else
        (if route[0].to == token then answer.reported - answer.delivered else 0)
        + Shortfall(s, route[1..], answer.reported, minReceived, recipient, token)
  }

  /** What the last venue delivers to the recipient. */
  function Delivered(s: State, route: seq<Hop>, amount: int, minReceived: int, recipient: Address): int
    decreases |route|
  {
    if route == [] then amount
    else
      var answer := FirstAnswer(s, route, amount, minReceived, recipient);
      if answer.Refuses? then 0
      else if |route| == 1 then answer.delivered
      else Delivered(s, route[1..], answer.reported, minReceived, recipient)
  }

  /** Every venue before the last delivers what it reports. */
  predicate PassesInFull(s: State, route: seq<Hop>, amount: int, minReceived: int, recipient: Address)
    decreases |route|
  {
    |route| <= 1 ||
    var answer := FirstAnswer(s, route, amount, minReceived, recipient);
    answer.Refuses?
    || (answer.delivered == answer.reported && PassesInFull(s, route[1..], answer.reported, minReceived, recipient))
  }

  /** And so does the last. */
  predicate DeliversInFull(s: State, route: seq<Hop>, amount: int, minReceived: int, recipient: Address)
    decreases |route|
  {
    route == [] ||
    var answer := FirstAnswer(s, route, amount, minReceived, recipient);
    answer.Refuses?
    || (answer.delivered == answer.reported && DeliversInFull(s, route[1..], answer.reported, minReceived, recipient))
  }

  lemma {:induction false} InFullIsNotShort(s: State, route: seq<Hop>, amount: int, minReceived: int, recipient: Address)
    ensures PassesInFull(s, route, amount, minReceived, recipient) ==>
              forall t :: Shortfall(s, route, amount, minReceived, recipient, t) == 0
    ensures DeliversInFull(s, route, amount, minReceived, recipient) ==> PassesInFull(s, route, amount, minReceived, recipient)
    decreases |route|
  {
    if route != [] {
      hide FirstAnswer;
      var answer := FirstAnswer(s, route, amount, minReceived, recipient);
      if answer.Answers? {
        InFullIsNotShort(s, route[1..], answer.reported, minReceived, recipient);
      }
    }
  }

  /** `AmmSwap` venues deliver in full. */
  lemma {:induction false} AmmSwapsDeliverInFull(s: State, route: seq<Hop>, amount: int, minReceived: int, recipient: Address)
    requires forall h | h in route :: h.venue in s.world.venues
    ensures DeliversInFull(s, route, amount, minReceived, recipient)
    decreases |route|
  {
    if route != [] {
      assert route[0] in route;
      var answer := FirstAnswer(s, route, amount, minReceived, recipient);
      if answer.Answers? {
        AmmSwapsDeliverInFull(s, route[1..], answer.reported, minReceived, recipient);
      }
    }
  }

  /** Balances after a route, seen from anyone who is not one of its venues: the
      contract is out `amount` of the first asset and every shortfall, and the
      recipient gains what the last venue delivers. */
  ghost predicate Moved(s: State, before: Balances, after: Balances, route: seq<Hop>,
                        from: Address, amount: int, minReceived: int, recipient: Address)
    requires route != []
  {
    forall t, a | Bystander(route, a) ::
      BalanceOf(after, t, a)
      == BalanceOf(before, t, a)
         - (if a == s.env.self
            then (if t == from then amount else 0) + Shortfall(s, route, amount, minReceived, recipient, t) else 0)
         + (if a == recipient && t == route[|route| - 1].to
            then Delivered(s, route, amount, minReceived, recipient) else 0)
  }

  /** One swap, seen from anyone but its venue. */
  ghost predicate SwapMoved(self: Address, before: Balances, after: Balances, venue: Address, from: Address, amount: int,
                            to: Address, delivered: int, receiver: Address) {
    forall t, a | a != venue ::
      BalanceOf(after, t, a) == BalanceOf(before, t, a) - (if a == self && t == from then amount else 0)
                                + (if a == receiver && t == to then delivered else 0)
  }

  lemma SwapMoves(s: State, b: Balances, venue: Address, from: Address, amount: int, to: Address, minOut: int, receiver: Address)
    requires SwapAt(s, b, venue, from, amount, to, minOut, receiver).Ok?
    ensures var (b', out) := SwapAt(s, b, venue, from, amount, to, minOut, receiver).value;
            var answer := AnswerAt(s, venue, Call(from, amount, to, minOut, receiver));
            && venue != s.env.self && answer.Answers? && out == answer.reported && 0 <= answer.delivered
            && SwapMoved(s.env.self, b, b', venue, from, amount, to, answer.delivered, receiver)
            && (Solvent(b) ==> Solvent(b'))
  {
    hide Transfer, Quote, Solvent;
  }

  lemma MoveOnce(s: State, b: Balances, end: Balances, route: seq<Hop>, from: Address, amount: int, minReceived: int,
                 recipient: Address)
    requires |route| == 1 && FirstAnswer(s, route, amount, minReceived, recipient).Answers?
    requires SwapMoved(s.env.self, b, end, route[0].venue, from, amount, route[0].to,
                       FirstAnswer(s, route, amount, minReceived, recipient).delivered, recipient)
    ensures Moved(s, b, end, route, from, amount, minReceived, recipient)
  {
    hide FirstAnswer;
    assert route[0] in route;
  }

  /** One hop into the contract, then the rest of the route. */
  lemma MoveThenRest(s: State, b: Balances, mid: Balances, end: Balances, route: seq<Hop>, from: Address, amount: int,
                     minReceived: int, recipient: Address)
    requires |route| > 1 && FirstAnswer(s, route, amount, minReceived, recipient).Answers?
    requires var answer := FirstAnswer(s, route, amount, minReceived, recipient);
             && SwapMoved(s.env.self, b, mid, route[0].venue, from, amount, route[0].to, answer.delivered, s.env.self)
             && Moved(s, mid, end, route[1..], route[0].to, answer.reported, minReceived, recipient)
    ensures Moved(s, b, end, route, from, amount, minReceived, recipient)
  {
    hide FirstAnswer, Shortfall, Delivered, Bystander, BalanceOf;
    forall t, a | Bystander(route, a)
      ensures BalanceOf(end, t, a)
           == BalanceOf(b, t, a)
              - (if a == s.env.self
                 then (if t == from then amount else 0) + Shortfall(s, route, amount, minReceived, recipient, t) else 0)
              + (if a == recipient && t == route[|route| - 1].to
                 then Delivered(s, route, amount, minReceived, recipient) else 0)
    {
      MoveThenRestAt(s, b, mid, end, route, from, amount, minReceived, recipient, t, a);
    }
  }

  lemma MoveThenRestAt(s: State, b: Balances, mid: Balances, end: Balances, route: seq<Hop>, from: Address, amount: int,
                       minReceived: int, recipient: Address, t: Address, a: Address)
    requires |route| > 1 && FirstAnswer(s, route, amount, minReceived, recipient).Answers?
    requires var answer := FirstAnswer(s, route, amount, minReceived, recipient);
             && SwapMoved(s.env.self, b, mid, route[0].venue, from, amount, route[0].to, answer.delivered, s.env.self)
             && Moved(s, mid, end, route[1..], route[0].to, answer.reported, minReceived, recipient)
    requires Bystander(route, a)
    ensures BalanceOf(end, t, a)
         == BalanceOf(b, t, a)
            - (if a == s.env.self
               then (if t == from then amount else 0) + Shortfall(s, route, amount, minReceived, recipient, t) else 0)
            + (if a == recipient && t == route[|route| - 1].to
               then Delivered(s, route, amount, minReceived, recipient) else 0)
  {
    hide FirstAnswer, Shortfall, Delivered, Bystander, BalanceOf;
    var rest := route[1..];
    assert route[|route| - 1] == rest[|rest| - 1];
    ShortfallUnfolds(s, route, amount, minReceived, recipient);
    BystanderParts(route, a);
  }

  lemma BystanderParts(route: seq<Hop>, who: Address)
    requires route != [] && Bystander(route, who)
    ensures who != route[0].venue && Bystander(route[1..], who)
  {
    assert route[0] in route;
  }

  lemma ShortfallUnfolds(s: State, route: seq<Hop>, amount: int, minReceived: int, recipient: Address)
    requires |route| > 1 && FirstAnswer(s, route, amount, minReceived, recipient).Answers?
    ensures var answer, rest := FirstAnswer(s, route, amount, minReceived, recipient), route[1..];
            && (forall t :: Shortfall(s, route, amount, minReceived, recipient, t)
                            == (if route[0].to == t then answer.reported - answer.delivered else 0)
                               + Shortfall(s, rest, answer.reported, minReceived, recipient, t))
            && Delivered(s, route, amount, minReceived, recipient) == Delivered(s, rest, answer.reported, minReceived, recipient)
  {
    hide FirstAnswer;
  }

  /** What an executed route moves, whatever its venues answer. */
  lemma {:induction false} HopsMove(s: State, b: Balances, route: seq<Hop>, from: Address, amount: int,
                                    minReceived: int, recipient: Address)
    requires route != [] && Chained(from, route)
    requires ExecuteHops(s, b, route, amount, minReceived, recipient).Ok?
    ensures var (b', out) := ExecuteHops(s, b, route, amount, minReceived, recipient).value;
            && Moved(s, b, b', route, from, amount, minReceived, recipient)
            && Bystander(route, s.env.self) && 0 <= Delivered(s, route, amount, minReceived, recipient)
            && 0 < out && minReceived <= out && route[|route| - 1].minOut <= out
            && (DeliversInFull(s, route, amount, minReceived, recipient) ==> Delivered(s, route, amount, minReceived, recipient) == out)
            && (Solvent(b) ==> Solvent(b'))
    decreases |route|
  {
    hide SwapAt, SwapMoved, Moved, Solvent, Chained, AnswerAt;
    var hop, rest, final := route[0], route[1..], |route| == 1;
    ChainedTail(from, route);
    var call := CallOf(s, route, amount, minReceived, recipient);
    var first := SwapAt(s, b, hop.venue, hop.from, amount, hop.to, call.minOut, call.receiver).value;
    SwapMoves(s, b, hop.venue, hop.from, amount, hop.to, call.minOut, call.receiver);
    if final {
      MoveOnce(s, b, first.0, route, from, amount, minReceived, recipient);
    } else {
      HopsMove(s, first.0, rest, hop.to, first.1, minReceived, recipient);
      assert route[|route| - 1] == rest[|rest| - 1];
      var (b', out) := ExecuteHops(s, b, route, amount, minReceived, recipient).value;
      MoveThenRest(s, b, first.0, b', route, from, amount, minReceived, recipient);
    }
  }

  /** Every venue reports something, and at least its hop's minimum. */
  predicate MeetsMinimums(s: State, route: seq<Hop>, amount: int, minReceived: int, recipient: Address)
    decreases |route|
  {
    route == [] ||
    var answer := FirstAnswer(s, route, amount, minReceived, recipient);
    answer.Answers? && 0 < answer.reported && route[0].minOut <= answer.reported
    && MeetsMinimums(s, route[1..], answer.reported, minReceived, recipient)
  }

  lemma {:induction false} HopsMeetMinimums(s: State, b: Balances, route: seq<Hop>, amount: int, minReceived: int, recipient: Address)
    requires ExecuteHops(s, b, route, amount, minReceived, recipient).Ok?
    ensures MeetsMinimums(s, route, amount, minReceived, recipient)
    decreases |route|
  {
    hide SwapAt, AnswerAt;
    if route != [] {
      var hop, call := route[0], CallOf(s, route, amount, minReceived, recipient);
      var first := SwapAt(s, b, hop.venue, hop.from, amount, hop.to, call.minOut, call.receiver).value;
      SwapMoves(s, b, hop.venue, hop.from, amount, hop.to, call.minOut, call.receiver);
      HopsMeetMinimums(s, first.0, route[1..], first.1, minReceived, recipient);
    }
  }

  /** Only the tokens strictly inside a route can fall short. */
  lemma {:induction false} ShortfallIsInside(s: State, route: seq<Hop>, amount: int, minReceived: int, recipient: Address, t: Address)
    requires forall i | 0 <= i < |route| - 1 :: route[i].to != t
    ensures Shortfall(s, route, amount, minReceived, recipient, t) == 0
    decreases |route|
  {
    if |route| > 1 {
      hide FirstAnswer;
      var answer, rest := FirstAnswer(s, route, amount, minReceived, recipient), route[1..];
      if answer.Answers? {
        assert route[0].to != t;
        assert forall i | 0 <= i < |rest| - 1 :: rest[i] == route[i + 1];
        ShortfallIsInside(s, rest, answer.reported, minReceived, recipient, t);
      }
    }
  }

  // ---- Conversions from the channel's point of view ----

  /** The contract's own balances never fall by more than the debited amount of
      the channel's token. */
  ghost predicate CostsAtMost(self: Address, before: Balances, after: Balances, token: Address, amount: int) {
    && (Solvent(before) ==> Solvent(after))
    && forall t :: BalanceOf(before, t, self) - (if t == token then amount else 0) <= BalanceOf(after, t, self)
  }

  lemma SameAssetCosts(s: State, token: Address, amount: int, minReceived: int, recipient: Address)
    requires 0 < amount && SameAsset(s, token, amount, minReceived, recipient).Ok?
    ensures CostsAtMost(s.env.self, s.world.balances, SameAsset(s, token, amount, minReceived, recipient).value.0, token, amount)
  {}

  lemma ConversionCosts(s: State, from: Address, amount: int, to: Address, minReceived: int, recipient: Address)
    requires ExecuteConversion(s, from, amount, to, minReceived, recipient).Ok?
    ensures CostsAtMost(s.env.self, s.world.balances,
                        ExecuteConversion(s, from, amount, to, minReceived, recipient).value.0, from, amount)
  {}

  /** The 95% floor, with the price it was computed from. */
  ghost predicate AboveFloor(s: State, from: Address, amount: int, dest: Address, out: int) {
    && s.oracle.Some? && s.oracle.value in s.world.feeds
    && var feed := s.world.feeds[s.oracle.value];
       && Pair(from, dest) in feed.prices
       && var entry := feed.prices[Pair(from, dest)];
          && s.world.ledger - entry.ledger <= feed.maxAge
          && OracleFloor(amount, entry.price) <= out
          && 95 * amount * entry.price < 100 * PRICE_SCALE * (out + 2)
  }

  lemma FloorAllowsFivePercent(amount: int, price: int, out: int)
    requires 0 <= amount && 0 < price && OracleFloor(amount, price) <= out
    ensures 95 * amount * price < 100 * PRICE_SCALE * (out + 2)
  {
    var fair := amount * price / PRICE_SCALE;
    assert amount * price < (fair + 1) * PRICE_SCALE;
    assert fair * 9500 < (out + 1) * 10_000;
    assert 95 * (amount * price) == 95 * amount * price;
  }

  /** The ends of a simple path are not inside it. */
  lemma EndsAreOutside(from: Address, route: seq<Hop>, dest: Address)
    requires SimplePath(from, route, dest)
    ensures forall i | 0 <= i < |route| - 1 :: route[i].to != from && route[i].to != dest
  {
    var path := TokenPath(from, route);
    forall i | 0 <= i < |route| - 1
      ensures route[i].to != from && route[i].to != dest
    {
      assert path[0] == from && path[i + 1] == route[i].to && path[|route|] == dest;
    }
  }

  /** A successful cross-asset route follows a simple path and reports at least the
      caller's minimum, the last hop's minimum and the oracle's floor at a fresh
      price. The contract is out exactly `amount` of the channel's token and, of
      each asset in between, what its venue reported but did not deliver; the
      recipient has what the last venue delivered, the reported amount if all
      venues deliver in full. */
  lemma RouteDelivers(s: State, agent: Address, id: u64, recipient: Address, amount: i128, dest: Address,
                      route: seq<Hop>, minReceived: i128, validUntil: u32)
    requires id in s.channels && s.channels[id].token != dest
    requires PayWithRoute(s, agent, id, recipient, amount, dest, route, minReceived, validUntil).Ok?
    ensures var (s', out) := PayWithRoute(s, agent, id, recipient, amount, dest, route, minReceived, validUntil).value;
            var from := s.channels[id].token;
            && SimplePath(from, route, dest) && Bystander(route, s.env.self)
            && 0 <= Delivered(s, route, amount, minReceived, recipient)
            && Moved(s, s.world.balances, s'.world.balances, route, from, amount, minReceived, recipient)
            && Shortfall(s, route, amount, minReceived, recipient, from) == 0
            && (recipient != s.env.self ==>
                  forall i | 0 <= i < |route| - 1 ::
                    BalanceOf(s'.world.balances, route[i].to, s.env.self)
                    == BalanceOf(s.world.balances, route[i].to, s.env.self)
                       - Shortfall(s, route, amount, minReceived, recipient, route[i].to))
            && (DeliversInFull(s, route, amount, minReceived, recipient) ==>
                  Delivered(s, route, amount, minReceived, recipient) == out
                  && forall t :: Shortfall(s, route, amount, minReceived, recipient, t) == 0)
            && MeetsMinimums(s, route, amount, minReceived, recipient)
            && Max(minReceived, route[|route| - 1].minOut) <= out
            && AboveFloor(s, from, amount, dest, out)
            && (Solvent(s.world.balances) ==> Solvent(s'.world.balances))
  {
    hide ExecuteHops, Solvent, HopsGuarded, Shortfall, Delivered, DeliversInFull, PassesInFull, Bystander;
    var from := s.channels[id].token;
    RouteAccepted(s.env.self, route, from, dest);
    HopsMove(s, s.world.balances, route, from, amount, minReceived, recipient);
    HopsMeetMinimums(s, s.world.balances, route, amount, minReceived, recipient);
    hide MeetsMinimums;
    var feed := s.world.feeds[s.oracle.value];
    var (s', out) := PayWithRoute(s, agent, id, recipient, amount, dest, route, minReceived, validUntil).value;
    FloorAllowsFivePercent(amount, feed.prices[Pair(from, dest)].price, out);
    EndsAreOutside(from, route, dest);
    ShortfallIsInside(s, route, amount, minReceived, recipient, from);
    InFullIsNotShort(s, route, amount, minReceived, recipient);
  }

  /** A successful one-venue conversion costs the contract exactly `amount` and pays
      the recipient what the venue delivers; the minimum it was asked for is at or
      above the oracle's floor at a fresh price, and an `AmmSwap` delivers at least
      that. */
  lemma ConversionDelivers(s: State, agent: Address, id: u64, recipient: Address, amount: i128, dest: Address,
                           minReceived: i128)
    requires id in s.channels && s.channels[id].token != dest
    requires PayWithConversion(s, agent, id, recipient, amount, dest, minReceived).Ok?
    ensures var (s', out) := PayWithConversion(s, agent, id, recipient, amount, dest, minReceived).value;
            var from := s.channels[id].token;
            && s.amm.Some? && s.amm.value != s.env.self
            && SwapMoved(s.env.self, s.world.balances, s'.world.balances, s.amm.value, from, amount, dest,
                         AnswerAt(s, s.amm.value, Call(from, amount, dest, minReceived, recipient)).delivered, recipient)
            && var answer := AnswerAt(s, s.amm.value, Call(from, amount, dest, minReceived, recipient));
               && answer.Answers? && out == answer.reported
               && (recipient != s.amm.value && recipient != s.env.self ==>
                     BalanceOf(s'.world.balances, dest, recipient) == BalanceOf(s.world.balances, dest, recipient) + answer.delivered)
               && BalanceOf(s'.world.balances, from, s.env.self) == BalanceOf(s.world.balances, from, s.env.self) - amount
               && (s.amm.value in s.world.venues ==> answer.delivered == out && minReceived <= out)
               && AboveFloor(s, from, amount, dest, minReceived)
  {
    var from := s.channels[id].token;
    var feed := s.world.feeds[s.oracle.value];
    var (s', out) := PayWithConversion(s, agent, id, recipient, amount, dest, minReceived).value;
    FloorAllowsFivePercent(amount, feed.prices[Pair(from, dest)].price, minReceived);
    SwapMoves(s, s.world.balances, s.amm.value, from, amount, dest, minReceived, recipient);
  }
}
