/** One dispute from deployment to payout: the protocol's promises are not empty,
    and a payer that closes with a stale voucher pays for it. */
module ChannelScenario {
  import opened Base
  import opened Tokens
  import opened Voucher
  import opened ChannelModel
  import opened ChannelInvariant
  import opened ChannelDisputes
  import opened ChannelCustody
  import ChannelKeys

  /** Who deals with whom, and for how much: the payer claims `stale` where
      `owed` was signed for. */
  datatype Deal = Deal(owner: Address, agent: Address, recipient: Address, token: Address,
                       deposit: i128, limit: i128, period: SpendPeriod, amount: i128,
                       signer: Bytes, stale: i128, staleSignature: Bytes, owed: i128, owedSignature: Bytes)

  ghost predicate Feasible(s: State, d: Deal) {
    && !s.world.paused && s.world.ledger + 720 <= U32_MAX
    && d.owner != s.env.self && d.recipient != s.env.self && d.recipient != d.owner
    && 0 < d.limit <= d.deposit <= BalanceOf(s.world.balances, d.token, d.owner)
    && BalanceOf(s.world.balances, d.token, s.env.self) + d.deposit <= I128_MAX
    && BalanceOf(s.world.balances, d.token, d.recipient) + d.amount <= I128_MAX
    && 0 < d.stale <= d.owed <= d.amount <= d.deposit
    && s.env.verify(d.signer, Encode(ClaimOf(s.env, 1, d.recipient, 1, d.stale)), d.staleSignature)
    && s.env.verify(d.signer, Encode(ClaimOf(s.env, 1, d.recipient, 2, d.owed)), d.owedSignature)
  }

  function Opening(d: Deal): seq<Op> {
    [OpOpen(d.owner, d.agent, d.token, d.deposit, d.limit, d.period),
     OpEnable(d.owner, 1, d.signer, MIN_DISPUTE_LEDGERS),
     OpAllocate(d.owner, 1, d.recipient, d.amount)]
  }

  function Disputing(d: Deal, closer: Address): seq<Op> {
    [OpUnilateral(closer, 1, d.recipient, 1, d.stale, d.staleSignature),
     OpChallenge(1, d.recipient, 2, d.owed, d.owedSignature)]
  }

  /** The channel after `Opening`. */
  ghost predicate Ready(s: State, d: Deal, ledger: int, received: int) {
    && !s.world.paused && s.world.ledger == ledger
    && 1 in s.channels && s.channels[1].owner == d.owner && s.channels[1].agent == d.agent
    && s.channels[1].token == d.token && s.channels[1].signer == Some(d.signer)
    && s.channels[1].dispute == MIN_DISPUTE_LEDGERS
    && s.channels[1].active && s.channels[1].collateral == d.deposit && s.channels[1].reserved == d.amount
    && s.channels[1].totalSpent == 0
    && s.allocations == map[Key(1, d.recipient) := Allocation(d.amount, 0)] && s.settlements == map[]
    && BalanceOf(s.world.balances, d.token, d.recipient) == received
  }

  lemma RunTwo(s: State, a: Op, b: Op)
    ensures Run(s, [a, b]) == Apply(Apply(s, a), b)
  {
    hide Apply;
    assert [a, b][1..] == [b] && [b][1..] == [];
    assert Run(Apply(Apply(s, a), b), []) == Apply(Apply(s, a), b);
    assert Run(Apply(s, a), [b]) == Apply(Apply(s, a), b);
  }

  lemma RunThree(s: State, a: Op, b: Op, c: Op)
    ensures Run(s, [a, b, c]) == Apply(Apply(Apply(s, a), b), c)
  {
    hide Apply;
    RunTwo(Apply(s, a), b, c);
    assert [a, b, c][1..] == [b, c];
  }

  lemma OpeningSucceeds(s: State, d: Deal)
    requires Fresh(s) && Feasible(s, d)
    ensures var s' := Run(s, Opening(d));
            s'.env == s.env && Ready(s', d, s.world.ledger, BalanceOf(s.world.balances, d.token, d.recipient))
  {
    hide Encode, Solvent;
    var a, b, c := Opening(d)[0], Opening(d)[1], Opening(d)[2];
    RunThree(s, a, b, c);
    OpenSucceeds(s, d);
    var s1 := Apply(s, a);
    hide OpenChannel, Transfer;
    assert EnableVouchers(s1, d.owner, 1, d.signer, MIN_DISPUTE_LEDGERS).Ok?;
    var s2 := Apply(s1, b);
    assert Allocate(s2, d.owner, 1, d.recipient, d.amount).Ok?;
  }

  lemma OpenSucceeds(s: State, d: Deal)
    requires Fresh(s) && Feasible(s, d)
    ensures var s' := Apply(s, OpOpen(d.owner, d.agent, d.token, d.deposit, d.limit, d.period));
            && s'.channels == map[1 := Channel(d.agent, d.owner, d.token, d.limit, d.period, 0, s.world.ledger, 0, true,
                                               d.deposit, 0, None, DEFAULT_DISPUTE_LEDGERS)]
            && s'.allocations == map[] && s'.settlements == map[] && s'.env == s.env
            && s'.world == s.world.(balances := s'.world.balances)
            && BalanceOf(s'.world.balances, d.token, d.recipient) == BalanceOf(s.world.balances, d.token, d.recipient)
  {
    hide Encode;
    assert OpenChannel(s, d.owner, d.agent, d.token, d.deposit, d.limit, d.period).Ok?;
  }

  /** The stale close, by anyone, and its challenge. */
  lemma DisputingSucceeds(s: State, d: Deal, closer: Address, ledger: int, received: int)
    requires Ready(s, d, ledger, received) && 0 < d.stale <= d.owed <= d.amount
    requires closer != s.env.self && ledger + 720 <= U32_MAX
    requires s.env.verify(d.signer, Encode(ClaimOf(s.env, 1, d.recipient, 1, d.stale)), d.staleSignature)
    requires s.env.verify(d.signer, Encode(ClaimOf(s.env, 1, d.recipient, 2, d.owed)), d.owedSignature)
    ensures var s', k := Run(s, Disputing(d, closer)), Key(1, d.recipient);
            && k in s'.settlements && s'.world == s.world && s'.channels == s.channels && s'.allocations == s.allocations
            && s'.settlements[k].first == d.stale && s'.settlements[k].best == d.owed
            && s'.settlements[k].openedAt == ledger
            && (s'.settlements[k].byPayer <==> closer in {d.owner, d.agent})
            && s'.env == s.env
  {
    hide Encode;
    var a, b := Disputing(d, closer)[0], Disputing(d, closer)[1];
    RunTwo(s, a, b);
    assert CloseUnilateral(s, closer, 1, d.recipient, 1, d.stale, d.staleSignature).Ok?;
    var s1 := Apply(s, a);
    assert s1.settlements == map[Key(1, d.recipient) := Settlement(1, d.stale, d.stale, ledger, closer == d.owner || closer == d.agent)];
    assert Challenge(s1, 1, d.recipient, 2, d.owed, d.owedSignature).Ok? <==> d.stale < d.owed;
  }

  /** From any deployment in which the deal is feasible: open, allocate, close with
      the stale voucher, challenge with the owed one, wait out the window and
      finalize. If the payer's side closed, the owner or the agent, the recipient
      ends up with what it was owed plus what was understated, as far as the
      allocation reaches; if anyone else did, with exactly what it was owed. */
  lemma StaleCloseIsPunished(s: State, d: Deal, closer: Address, later: u32)
    requires Fresh(s) && Feasible(s, d) && closer != s.env.self && s.world.ledger + 720 <= later
    ensures var disputed := Run(Run(s, Opening(d)), Disputing(d, closer));
            var done := Finalize(disputed.(world := disputed.world.(ledger := later)), 1, d.recipient);
            && done.Ok?
            && done.value.1 == (if closer in {d.owner, d.agent} then Min(d.owed + (d.owed - d.stale), d.amount) else d.owed)
            && BalanceOf(done.value.0.world.balances, d.token, d.recipient)
               == BalanceOf(s.world.balances, d.token, d.recipient) + done.value.1
  {
    hide Sound, Custody, Run, Encode, Finalize, Solvent;
    OpeningSucceeds(s, d);
    var ready := Run(s, Opening(d));
    DisputingSucceeds(ready, d, closer, s.world.ledger, BalanceOf(s.world.balances, d.token, d.recipient));
    FreshIsFine(s);
    RoutelessKeepsCustody(s, Opening(d));
    RoutelessKeepsCustody(ready, Disputing(d, closer));
    var disputed := Run(ready, Disputing(d, closer));
    var waited := disputed.world.(ledger := later);
    PassingTimeKeeps(disputed, later);
    FinalizeSucceeds(disputed.(world := waited), Key(1, d.recipient));
  }

  // ---- An allocation no voucher can reach ----

  /** The whole allocation settled cooperatively, then `added` allocated on top. */
  function Reusing(d: Deal, added: i128): seq<Op> {
    [OpCooperative(1, d.recipient, 2, d.owed, d.owedSignature), OpAllocate(d.owner, 1, d.recipient, added)]
  }

  /** From any deployment in which the deal is feasible, a run settles the whole
      allocation and allocates again. What is settled then exceeds the allocation
      unless the new one is larger than the old. */
  lemma SettledOutlivesAllocation(s: State, d: Deal, added: i128)
    requires Fresh(s) && Feasible(s, d) && d.owed == d.amount && 0 < added && d.amount + added <= d.deposit
    ensures var end, k := Run(s, Opening(d) + Reusing(d, added)), Key(1, d.recipient);
            k in end.allocations && end.allocations[k] == Allocation(added, d.amount)
  {
    hide Sound, Custody, Run, Encode, Apply, Feasible, Ready;
    OpeningSucceeds(s, d);
    FreshIsFine(s);
    RoutelessKeepsCustody(s, Opening(d));
    RunAppends(s, Opening(d), Reusing(d, added));
    ReusingSucceeds(Run(s, Opening(d)), d, added, s.world.ledger, BalanceOf(s.world.balances, d.token, d.recipient))
      by { FeasibleParts(s, d); }
    var a, b := Reusing(d, added)[0], Reusing(d, added)[1];
    RunTwo(Run(s, Opening(d)), a, b);
  }

  lemma FeasibleParts(s: State, d: Deal)
    requires Feasible(s, d)
    ensures d.owner != s.env.self && d.recipient != s.env.self
    ensures BalanceOf(s.world.balances, d.token, d.recipient) + d.amount <= I128_MAX && 0 < d.owed
    ensures s.env.verify(d.signer, Encode(ClaimOf(s.env, 1, d.recipient, 2, d.owed)), d.owedSignature)
  {}

  lemma {:induction false} RunAppends(s: State, a: seq<Op>, b: seq<Op>)
    ensures Run(s, a + b) == Run(Run(s, a), b)
    decreases |a|
  {
    hide Apply;
    if a == [] {
      assert a + b == b;
    } else {
      assert (a + b)[1..] == a[1..] + b;
      RunAppends(Apply(s, a[0]), a[1..], b);
    }
  }

  lemma ReusingSucceeds(s: State, d: Deal, added: i128, ledger: int, received: int)
    requires Inv(s) && Ready(s, d, ledger, received)
    requires d.owed == d.amount && 0 < added && d.amount + added <= d.deposit && 0 < d.owed
    requires d.owner != s.env.self && d.recipient != s.env.self && received + d.amount <= I128_MAX
    requires s.env.verify(d.signer, Encode(ClaimOf(s.env, 1, d.recipient, 2, d.owed)), d.owedSignature)
    ensures var end, k := Apply(Apply(s, Reusing(d, added)[0]), Reusing(d, added)[1]), Key(1, d.recipient);
            k in end.allocations && end.allocations[k] == Allocation(added, d.amount)
  {
    hide Sound, Custody, Encode, PayOut, VerifyVoucher;
    var k := Key(1, d.recipient);
    ChannelKeys.VerifiesIff(s, k, 2, d.owed, d.owedSignature);
    CollateralHeld(s, 1);
    BalancesAreSolvent(s);
    PayOutSucceeds(s, k, d.owed, 0);
    CooperativeSettles(s, k, d.owed, d.owedSignature);
    var t := Apply(s, Reusing(d, added)[0]);
    assert Allocate(t, d.owner, 1, d.recipient, added).Ok?;
  }

  lemma CooperativeSettles(s: State, k: Key, amount: i128, signature: Bytes)
    requires !s.world.paused && k.channel in s.channels && k in s.allocations && k !in s.settlements
    requires s.channels[k.channel].owner != s.env.self && k.recipient != s.env.self
    requires VerifyVoucher(s, s.channels[k.channel], k, 2, amount, signature).Ok? && PayOut(s, k, amount, 0).Ok?
    ensures var t := Apply(s, OpCooperative(k.channel, k.recipient, 2, amount, signature));
            && t.env == s.env && t.world.paused == s.world.paused && t.settlements == s.settlements
            && k.channel in t.channels && t.allocations == s.allocations[k := Allocation(0, amount)]
            && var c, due := s.channels[k.channel], amount - s.allocations[k].settled;
               t.channels[k.channel] == c.(reserved := c.reserved - s.allocations[k].amount,
                                           collateral := c.collateral - due, totalSpent := c.totalSpent + due)
  {
    hide Transfer, VerifyVoucher;
  }

  /** Such a deployment exists: 100 allocated and settled, 50 allocated on top, and
      the state in which no voucher for the 50 is accepted is reached. */
  lemma AllocationCanBeDead()
    ensures exists s, ops, k :: Fresh(s) && k in Run(s, ops).allocations && Run(s, ops).allocations[k] == Allocation(50, 100)
  {
    hide Run;
    var s, d := Example(), ExampleDeal(100);
    ExampleIsFeasible(100);
    SettledOutlivesAllocation(s, d, 50);
    var ops := Opening(d) + Reusing(d, 50);
    assert Fresh(s) && Key(1, d.recipient) in Run(s, ops).allocations
           && Run(s, ops).allocations[Key(1, d.recipient)] == Allocation(50, 100);
  }

  function Example(): State {
    State(Env(9, seq(32, _ => 0), _ => seq(32, _ => 0), (k, _, _) => k == [1]),
          World(100, map[Holding(5, 1) := 150], false, map[], map[], map[]),
          map[], map[], map[], 0, None, None, [])
  }

  function ExampleDeal(stale: Positive): Deal
    requires stale <= 100
  {
    Deal(1, 2, 3, 5, 150, 10, Daily, 100, [1], stale, [], 100, [])
  }

  lemma ExampleIsFeasible(stale: Positive)
    requires stale <= 100
    ensures Fresh(Example()) && Feasible(Example(), ExampleDeal(stale))
  {
    hide Encode;
  }

  // ---- A key replaced while a close is open ----

  /** The payer's stale close, unchallenged so far. */
  function Closing(d: Deal): Op {
    OpUnilateral(d.owner, 1, d.recipient, 1, d.stale, d.staleSignature)
  }

  lemma ClosingSucceeds(s: State, d: Deal, ledger: int, received: int)
    requires Ready(s, d, ledger, received) && 0 < d.stale <= d.owed <= d.amount && d.owner != s.env.self
    requires ledger <= U32_MAX
    requires s.env.verify(d.signer, Encode(ClaimOf(s.env, 1, d.recipient, 1, d.stale)), d.staleSignature)
    requires s.env.verify(d.signer, Encode(ClaimOf(s.env, 1, d.recipient, 2, d.owed)), d.owedSignature)
    ensures var t, k := Apply(s, Closing(d)), Key(1, d.recipient);
            && t.env == s.env && t.channels == s.channels && t.allocations == s.allocations
            && k in t.settlements && t.settlements[k].first == t.settlements[k].best == d.stale
            && VerifyVoucher(t, t.channels[1], k, 2, d.owed, d.owedSignature).Ok?
  {
    hide Encode;
    assert CloseUnilateral(s, d.owner, 1, d.recipient, 1, d.stale, d.staleSignature).Ok?;
  }

  /** From any deployment in which the deal is feasible: with the stale close open and
      the owed voucher good, the owner may replace the key by one that verifies
      nothing, and on every run until the next change the close pays the stale
      amount. */
  lemma KeyCanBeLost(s: State, d: Deal, mute: Bytes, ops: seq<Op>)
    requires Fresh(s) && Feasible(s, d) && ChannelKeys.Mute(s.env, mute)
    requires forall op | op in ops :: !ChannelKeys.Finalizes(op, Key(1, d.recipient)) && !ChannelKeys.Enables(op, 1)
    ensures var closing, k := Apply(Run(s, Opening(d)), Closing(d)), Key(1, d.recipient);
            && 1 in closing.channels && VerifyVoucher(closing, closing.channels[1], k, 2, d.owed, d.owedSignature).Ok?
            && EnableVouchers(closing, d.owner, 1, mute, MIN_DISPUTE_LEDGERS).Ok?
            && var end := Run(EnableVouchers(closing, d.owner, 1, mute, MIN_DISPUTE_LEDGERS).value.0, ops);
               k in end.settlements && k in end.allocations && Payout(end, k) == d.stale
  {
    hide Sound, Run, Encode, VerifyVoucher, ChannelKeys.Mute;
    OpeningSucceeds(s, d);
    ReachableIsFine(s, Opening(d));
    var ready := Run(s, Opening(d));
    ClosingSucceeds(ready, d, s.world.ledger, BalanceOf(s.world.balances, d.token, d.recipient));
    StepKeeps(ready, Closing(d));
    ChannelKeys.LostKeyForfeits(Apply(ready, Closing(d)), d.owner, mute, MIN_DISPUTE_LEDGERS, ops, Key(1, d.recipient));
  }

  /** Such a deployment exists: ten claimed where a hundred were signed for, and ten paid. */
  lemma TenForAHundred(ops: seq<Op>)
    requires forall op | op in ops :: !ChannelKeys.Finalizes(op, Key(1, 3)) && !ChannelKeys.Enables(op, 1)
    ensures exists s, mute :: var d := ExampleDeal(10);
              && Fresh(s) && Feasible(s, d) && d.owed == 100
              && EnableVouchers(Apply(Run(s, Opening(d)), Closing(d)), d.owner, 1, mute, MIN_DISPUTE_LEDGERS).Ok?
              && var end := Run(EnableVouchers(Apply(Run(s, Opening(d)), Closing(d)), d.owner, 1, mute, MIN_DISPUTE_LEDGERS).value.0, ops);
                 Key(1, 3) in end.settlements && Key(1, 3) in end.allocations && Payout(end, Key(1, 3)) == 10
  {
    hide Run, Encode, Feasible, Apply, EnableVouchers;
    var s, mute: Bytes := Example(), [2];
    ExampleIsFeasible(10);
    assert ChannelKeys.Mute(s.env, mute);
    KeyCanBeLost(s, ExampleDeal(10), mute, ops);
  }
}
