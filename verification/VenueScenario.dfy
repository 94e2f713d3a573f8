/** Why a route's venues matter: one that reports what it does not deliver makes the
    channel spend another owner's collateral. */
module VenueScenario {
  import opened Base
  import opened Tokens
  import opened Amm
  import opened Oracle
  import opened Voucher
  import opened ChannelModel
  import opened ChannelInvariant
  import opened ChannelRoutes
  import opened ChannelCustody

  const CONTRACT: Address := 9
  const VENUE: Address := 20  // of unknown code
  const POOL: Address := 21   // an `AmmSwap`
  const FEED: Address := 30
  const USD: Address := 5
  const EUR: Address := 6
  const XLM: Address := 7

  /** A deployment with one venue that reports a hundred and delivers nothing. */
  function Deployment(): State {
    State(Env(CONTRACT, seq(32, _ => 0), _ => seq(32, _ => 0), (_, _, _) => false),
          World(100, map[Holding(EUR, 1) := 100, Holding(USD, 2) := 10, Holding(XLM, POOL) := 100], false,
                map[POOL := map[Pair(EUR, XLM) := RATE_SCALE]],
                map[FEED := Feed(map[Pair(USD, XLM) := PriceEntry(PRICE_SCALE, 100)], DEFAULT_MAX_AGE)],
                map[VENUE := _ => Answers(0, 100)]),
          map[], map[], map[], 0, None, Some(FEED), [])
  }

  /** One owner deposits 100 EUR; another deposits 10 USD for an agent. */
  function Deposits(): seq<Op> {
    [OpOpen(1, 4, EUR, 100, 100, Daily), OpOpen(2, 3, USD, 10, 10, Daily)]
  }

  /** The agent pays 1 USD along a route through both venues. */
  function Routed(): Op {
    OpRoute(3, 2, 8, 1, XLM, [Hop(VENUE, USD, EUR, 0), Hop(POOL, EUR, XLM, 0)], 0, 200)
  }

  /** After the deposits; nobody else holds anything the route touches. */
  ghost predicate Deposited(s: State) {
    && s.env == Deployment().env && s.oracle == Some(FEED)
    && s.world == Deployment().world.(balances := s.world.balances) && Solvent(s.world.balances)
    && 1 in s.channels && s.channels[1].collateral == 100 && s.channels[1].token == EUR
    && 2 in s.channels
    && s.channels[2] == Channel(3, 2, USD, 10, Daily, 0, 100, 0, true, 10, 0, None, DEFAULT_DISPUTE_LEDGERS)
    && BalanceOf(s.world.balances, EUR, CONTRACT) == 100 && BalanceOf(s.world.balances, USD, CONTRACT) == 10
    && BalanceOf(s.world.balances, XLM, POOL) == 100 && BalanceOf(s.world.balances, USD, VENUE) == 0
    && BalanceOf(s.world.balances, EUR, VENUE) == 0 && BalanceOf(s.world.balances, EUR, POOL) == 0
    && BalanceOf(s.world.balances, XLM, 8) == 0
  }

  /** After the first of them. */
  ghost predicate HalfDeposited(s: State) {
    && s.env == Deployment().env && s.oracle == Some(FEED) && s.count == 1
    && s.world == Deployment().world.(balances := s.world.balances) && Solvent(s.world.balances)
    && s.channels == map[1 := Channel(4, 1, EUR, 100, Daily, 0, 100, 0, true, 100, 0, None, DEFAULT_DISPUTE_LEDGERS)]
    && BalanceOf(s.world.balances, EUR, CONTRACT) == 100 && BalanceOf(s.world.balances, USD, 2) == 10
    && BalanceOf(s.world.balances, USD, CONTRACT) == 0
    && BalanceOf(s.world.balances, XLM, POOL) == 100 && BalanceOf(s.world.balances, USD, VENUE) == 0
    && BalanceOf(s.world.balances, EUR, VENUE) == 0 && BalanceOf(s.world.balances, EUR, POOL) == 0
    && BalanceOf(s.world.balances, XLM, 8) == 0
  }

  lemma FirstDeposit()
    ensures Fresh(Deployment()) && HalfDeposited(Apply(Deployment(), Deposits()[0]))
  {
    var s := Deployment();
    assert Solvent(s.world.balances);
    assert OpenChannel(s, 1, 4, EUR, 100, 100, Daily).Ok?;
  }

  lemma SecondDeposit(s: State)
    requires HalfDeposited(s)
    ensures Deposited(Apply(s, Deposits()[1]))
  {
    hide Transfer, Solvent;
    assert OpenChannel(s, 2, 3, USD, 10, 10, Daily).Ok?;
  }

  lemma DepositsSucceed()
    ensures Fresh(Deployment()) && Deposited(Run(Deployment(), Deposits()))
  {
    hide Apply, HalfDeposited, Deposited;
    var a, b := Deposits()[0], Deposits()[1];
    FirstDeposit();
    var s1 := Apply(Deployment(), a);
    SecondDeposit(s1);
    assert [a, b][1..] == [b] && [b][1..] == [];
    assert Run(Apply(s1, b), []) == Apply(s1, b);
    assert Run(s1, [b]) == Apply(s1, b);
  }

  /** The first hop: the USD goes, a hundred EUR are reported, none arrive. */
  lemma FirstHop(s: State)
    requires Deposited(s)
    ensures var r := SwapAt(s, s.world.balances, VENUE, USD, 1, EUR, 0, CONTRACT);
            && r.Ok? && r.value.1 == 100 && Solvent(r.value.0)
            && BalanceOf(r.value.0, EUR, CONTRACT) == 100 && BalanceOf(r.value.0, EUR, POOL) == 0
            && BalanceOf(r.value.0, XLM, POOL) == 100 && BalanceOf(r.value.0, XLM, 8) == 0
  {}

  /** The second hop spends them all the same. */
  lemma SecondHop(s: State, b: Balances)
    requires Deposited(s) && Solvent(b)
    requires BalanceOf(b, EUR, CONTRACT) == 100 && BalanceOf(b, EUR, POOL) == 0
    requires BalanceOf(b, XLM, POOL) == 100 && BalanceOf(b, XLM, 8) == 0
    ensures var r := SwapAt(s, b, POOL, EUR, 100, XLM, 0, 8);
            r.Ok? && r.value.1 == 100
  {
    assert Quote(s.world.venues[POOL], EUR, 100, XLM) == Ok(100);
  }

  lemma RouteSucceeds(s: State)
    requires Deposited(s)
    ensures CrossRoute(s, Routed())
  {
    hide ExecuteHops, SwapAt, CheckRoute, Transfer, Solvent;
    HopsSucceed(s);
    RouteIsSimple();
    RouteAccepted(CONTRACT, Routed().route, USD, XLM);
    FloorIsMet(s);
    hide RequireOracleFloor;
    assert PayWithRoute(s, 3, 2, 8, 1, XLM, Routed().route, 0, 200).Ok?;
  }

  lemma FloorIsMet(s: State)
    requires Deposited(s)
    ensures RequireOracleFloor(s, USD, 1, XLM, 0).Ok?
  {}

  lemma HopsSucceed(s: State)
    requires Deposited(s)
    ensures var r := ExecuteHops(s, s.world.balances, Routed().route, 1, 0, 8);
            r.Ok? && r.value.1 == 100
  {
    hide SwapAt, Solvent, ExecuteHops;
    FirstHop(s);
    var first := SwapAt(s, s.world.balances, VENUE, USD, 1, EUR, 0, CONTRACT).value;
    SecondHop(s, first.0);
    HopsRun(s, Routed().route, first.0);
  }

  lemma HopsRun(s: State, route: seq<Hop>, mid: Balances)
    requires route == Routed().route && s.env.self == CONTRACT
    requires SwapAt(s, s.world.balances, VENUE, USD, 1, EUR, 0, CONTRACT) == Ok((mid, 100))
    requires SwapAt(s, mid, POOL, EUR, 100, XLM, 0, 8).Ok? && SwapAt(s, mid, POOL, EUR, 100, XLM, 0, 8).value.1 == 100
    ensures var r := ExecuteHops(s, s.world.balances, route, 1, 0, 8);
            r.Ok? && r.value.1 == 100
  {
    hide SwapAt;
    var rest := route[1..];
    assert rest == [Hop(POOL, EUR, XLM, 0)] && rest[1..] == [];
    var end := SwapAt(s, mid, POOL, EUR, 100, XLM, 0, 8).value.0;
    assert ExecuteHops(s, end, [], 100, 0, 8) == Ok((end, 100));
    assert ExecuteHops(s, mid, rest, 100, 0, 8) == Ok((end, 100));
  }

  lemma RouteIsSimple()
    ensures SimplePath(USD, Routed().route, XLM) && HopsGuarded(CONTRACT, Routed().route)
  {
    assert TokenPath(USD, Routed().route) == [USD, EUR, XLM];
  }

  lemma RouteFallsShort(s: State)
    requires Deposited(s)
    ensures var op := Routed(); Shortfall(s, op.route, op.amount, op.minReceived, op.recipient, EUR) == 100
  {
    var op := Routed();
    assert op.route[1..] == [Hop(POOL, EUR, XLM, 0)];
  }

  /** A deployment and a run of deposits and one routed payment after which the
      contract holds less EUR than the one EUR channel's collateral. */
  lemma ReportsCanCostCollateral()
    ensures Fresh(Deployment())
    ensures var s := Run(Deployment(), Deposits());
            && Inv(s) && !Covered(s, Routed()) && !Inv(Apply(s, Routed()))
            && 1 in Apply(s, Routed()).channels
            && BalanceOf(Apply(s, Routed()).world.balances, EUR, CONTRACT) < Apply(s, Routed()).channels[1].collateral
  {
    hide Sound, Custody, Run, Deposited, CrossRoute, Shortfall, Delivered, Surplus, PayWithRoute;
    DepositsSucceed();
    FreshIsFine(Deployment());
    RoutelessKeepsCustody(Deployment(), Deposits());
    var s := Run(Deployment(), Deposits());
    RouteSucceeds(s);
    RouteFallsShort(s);
    StepKeepsCustodyIff(s, Routed());
    NothingToSpare(s);
    assert Routed().route[0].to == EUR;
    StepKeeps(s, Routed());
    Uncovered(s);
  }

  /** The EUR channel's collateral is all the EUR there is. */
  lemma NothingToSpare(s: State)
    requires Deposited(s) && Inv(s)
    ensures Surplus(s, EUR) <= 0
  {
    hide Sound;
    var held := CollateralIn(s.channels, EUR);
    SoundCollateral(s);
    MapSum.SumBounds<u64>(held);
    assert held[1] == 100;
  }

  lemma SoundCollateral(s: State)
    requires Sound(s)
    ensures forall k | k in CollateralIn(s.channels, EUR) :: 0 <= CollateralIn(s.channels, EUR)[k]
  {
    hide AllocationsOk, SettlementsOk, JournalOk, Reserved, Books, Telescoped, Paced;
  }

  lemma Uncovered(s: State)
    requires Deposited(s) && Inv(s) && CrossRoute(s, Routed())
    ensures var s' := Apply(s, Routed());
            1 in s'.channels && BalanceOf(s'.world.balances, EUR, CONTRACT) < s'.channels[1].collateral
  {
    var op := Routed();
    var s' := Apply(s, op);
    RouteFallsShort(s);
    hide Sound, Custody, PayWithRoute, Shortfall, Delivered, AboveFloor;
    RouteDebits(s, op.agent, op.id, op.recipient, op.amount, op.dest, op.route, op.minReceived, op.validUntil);
    RouteDelivers(s, op.agent, op.id, op.recipient, op.amount, op.dest, op.route, op.minReceived, op.validUntil);
    assert op.route[0].to == EUR;
  }
}
