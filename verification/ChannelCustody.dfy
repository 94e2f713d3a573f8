/** Custody over whole runs: the contract holds the collateral exactly as long as
    no route spends on a venue's word what nobody delivered. */
module ChannelCustody {
  import opened Base
  import opened MapSum
  import opened Tokens
  import opened ChannelModel
  import opened ChannelInvariant
  import opened ChannelRoutes

  /** Each shortfall of a route is within what the contract holds of that token
      beyond its collateral. */
  ghost predicate Covered(s: State, op: Op) {
    CrossRoute(s, op) ==>
      forall i | 0 <= i < |op.route| - 1 ::
        Shortfall(s, op.route, op.amount, op.minReceived, op.recipient, op.route[i].to) <= Surplus(s, op.route[i].to)
  }

  lemma CustodyIsSurplus(s: State)
    ensures Custody(s.env.self, s.world.balances, s.channels) <==> forall t :: 0 <= Surplus(s, t)
  {
    hide Sum;
    if forall t :: 0 <= Surplus(s, t) {
      forall t
        ensures Sum<u64>(CollateralIn(s.channels, t)) <= BalanceOf(s.world.balances, t, s.env.self)
      {
        assert 0 <= Surplus(s, t);
      }
    }
  }

  /** What a successful route is, for the surplus. */
  lemma RouteFacts(s: State, op: Op)
    requires CrossRoute(s, op)
    ensures forall i | 0 <= i < |op.route| - 1 :: op.route[i].to != op.dest
    ensures 0 <= Delivered(s, op.route, op.amount, op.minReceived, op.recipient)
  {
    hide Shortfall, Delivered, Moved, AboveFloor, DeliversInFull, Solvent, PayWithRoute, Bystander;
    RouteDelivers(s, op.agent, op.id, op.recipient, op.amount, op.dest, op.route, op.minReceived, op.validUntil);
    EndsAreOutside(s.channels[op.id].token, op.route, op.dest);
  }

  /** A transaction keeps custody exactly when it is not a route with a shortfall
      beyond the surplus. */
  lemma StepKeepsCustodyIff(s: State, op: Op)
    requires Inv(s)
    ensures Inv(Apply(s, op)) <==> Covered(s, op)
  {
    hide Sound, Step, Shortfall, Delivered, Surplus, Custody, CrossRoute;
    StepKeeps(s, op);
    CustodyIsSurplus(s);
    var s' := Apply(s, op);
    CustodyIsSurplus(s');
    if CrossRoute(s, op) {
      RouteFacts(s, op);
      RouteShape(s, op);
      if Covered(s, op) {
        forall t
          ensures 0 <= Surplus(s', t)
        {
          if forall i | 0 <= i < |op.route| - 1 :: op.route[i].to != t {
            ShortfallIsInside(s, op.route, op.amount, op.minReceived, op.recipient, t);
          }
        }
      } else {
        var i :| 0 <= i < |op.route| - 1
                 && Surplus(s, op.route[i].to) < Shortfall(s, op.route, op.amount, op.minReceived, op.recipient, op.route[i].to);
        assert Surplus(s', op.route[i].to) < 0;
      }
    }
  }

  lemma RouteShape(s: State, op: Op)
    requires CrossRoute(s, op)
    ensures op.OpRoute?
  {}

  /** Every route along the run is covered where it starts. */
  ghost predicate CoveredRun(s: State, ops: seq<Op>)
    decreases |ops|
  {
    ops == [] || (Covered(s, ops[0]) && CoveredRun(Apply(s, ops[0]), ops[1..]))
  }

  /** Custody holds in every state along the run. */
  ghost predicate AlwaysInCustody(s: State, ops: seq<Op>)
    decreases |ops|
  {
    && Custody(s.env.self, s.world.balances, s.channels)
    && (ops == [] || AlwaysInCustody(Apply(s, ops[0]), ops[1..]))
  }

  /** On every run, whatever venues answer: the contract always holds the collateral
      exactly when every route is covered where it starts. */
  lemma {:induction false} CustodyOnRunIff(s: State, ops: seq<Op>)
    requires Inv(s)
    ensures AlwaysInCustody(s, ops) <==> CoveredRun(s, ops)
    ensures CoveredRun(s, ops) ==> Inv(Run(s, ops))
    decreases |ops|
  {
    hide Sound, Custody, Apply, Covered;
    if ops != [] {
      var next := Apply(s, ops[0]);
      StepKeeps(s, ops[0]);
      StepKeepsCustodyIff(s, ops[0]);
      if Covered(s, ops[0]) {
        CustodyOnRunIff(next, ops[1..]);
      } else {
        assert !Inv(next);
      }
    }
  }

  /** From deployment on: the contract holds, of every token, at least the collateral
      of all the channels in it together. */
  lemma CollateralIsHeld(start: State, ops: seq<Op>, token: Address)
    requires Fresh(start) && CoveredRun(start, ops)
    ensures var s := Run(start, ops);
            Sum<u64>(CollateralIn(s.channels, token)) <= BalanceOf(s.world.balances, token, s.env.self)
  {
    hide Sound, Run;
    FreshIsFine(start);
    CustodyOnRunIff(start, ops);
  }

  // ---- Runs that are covered ----

  /** A route through venues that pass on what they report is covered, and so is any
      route through `AmmSwap` venues. */
  lemma PassingInFullIsCovered(s: State, op: Op)
    requires Inv(s) && op.OpRoute?
    requires PassesInFull(s, op.route, op.amount, op.minReceived, op.recipient) || forall h | h in op.route :: h.venue in s.world.venues
    ensures Covered(s, op)
  {
    hide Sound, Shortfall, Surplus, PassesInFull, DeliversInFull, CrossRoute;
    if !PassesInFull(s, op.route, op.amount, op.minReceived, op.recipient) {
      AmmSwapsDeliverInFull(s, op.route, op.amount, op.minReceived, op.recipient);
    }
    InFullIsNotShort(s, op.route, op.amount, op.minReceived, op.recipient);
    CustodyIsSurplus(s);
  }

  lemma RoutelessKeepsCustody(s: State, ops: seq<Op>)
    requires Inv(s) && forall op | op in ops :: !op.OpRoute?
    ensures Inv(Run(s, ops))
  {
    RoutelessIsCovered(s, ops);
    CustodyOnRunIff(s, ops);
  }

  lemma PassingTimeKeeps(s: State, later: u32)
    requires Inv(s) && s.world.ledger <= later
    ensures Inv(s.(world := s.world.(ledger := later)))
  {
    hide Sound, Custody, Surplus, Covered;
    BalancesAreSolvent(s);
    StepKeepsCustodyIff(s, OpOutside(s.world.(ledger := later)));
    assert Covered(s, OpOutside(s.world.(ledger := later))) by { NotARoute(s, OpOutside(s.world.(ledger := later))); }
  }

  lemma NotARoute(s: State, op: Op)
    requires !op.OpRoute?
    ensures Covered(s, op)
  {}

  lemma {:induction false} RoutelessIsCovered(s: State, ops: seq<Op>)
    requires forall op | op in ops :: !op.OpRoute?
    ensures CoveredRun(s, ops)
    decreases |ops|
  {
    hide Apply;
    if ops != [] {
      assert ops[0] in ops;
      RoutelessIsCovered(Apply(s, ops[0]), ops[1..]);
    }
  }
}
