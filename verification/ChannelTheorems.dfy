/** The payment channel's promises, as statements about every run. */
module ChannelTheorems {
  import opened Base
  import opened MapSum
  import opened Tokens
  import opened Voucher
  import opened ChannelModel
  import opened ChannelJournal
  import opened ChannelInvariant
  import opened ChannelDisputes
  import Rates = ChannelRates
  import Keys = ChannelKeys

  // ---- What holds in every reachable state ----

  /** Allocations never promise more than the channel holds, and a close in
      flight never claims more than its allocation. */
  lemma AllocationsAreBacked(start: State, ops: seq<Op>, id: u64)
    requires Fresh(start) && id in Run(start, ops).channels
    ensures var s := Run(start, ops);
            var c := s.channels[id];
            && c.reserved == Sum(AmountsOf(s.allocations, id))
            && 0 <= c.reserved <= c.collateral
            && (forall k | k in s.settlements ::
                  k in s.allocations
                  && s.allocations[k].settled < s.settlements[k].first <= s.settlements[k].best <= s.allocations[k].amount)
  {
    ReachableIsFine(start, ops);
    var s := Run(start, ops);
    ChannelFacts(s, id);
    assert Reserved(s.channels, s.allocations) && SettlementsOk(s.world.ledger, s.allocations, s.settlements);
    hide Sound;
  }

  /** Deposits are conserved: collateral left, spent and returned add up to what
      was put in, spending is on-chain debits plus settled vouchers, and what a
      recipient was sent adds up to what is settled with it. */
  lemma DepositsAreConserved(start: State, ops: seq<Op>, id: u64, recipient: Address)
    requires Fresh(start) && id in Run(start, ops).channels
    ensures var s := Run(start, ops);
            var c, j := s.channels[id], s.journal;
            && Total(j, Deposits(id)) == c.collateral + c.totalSpent + Total(j, Returns(id))
            && c.totalSpent == Total(j, Debits(id)) + Sum(SettledOf(s.allocations, id))
            && Total(j, VouchersTo(id, recipient)) == AllocationOf(s, Key(id, recipient)).settled
  {
    ReachableIsFine(start, ops);
    var s := Run(start, ops);
    assert Books(s.channels, s.allocations, s.journal) && Telescoped(s.allocations, s.journal);
    hide Sound;
    assert Balanced(s.channels, s.allocations, s.journal, id);
    assert SettledFor(s.allocations, Key(id, recipient)) == AllocationOf(s, Key(id, recipient)).settled;
  }

  /** On-chain payments over any one period's length of consecutive ledgers stay
      within twice the limit, and since the opening within one limit per period
      begun. */
  lemma SpendingIsPaced(start: State, ops: seq<Op>, id: u64, from: int)
    requires Fresh(start) && id in Run(start, ops).channels
    ensures var s := Run(start, ops);
            var c, j := s.channels[id], s.journal;
            var length := match c.period case PerLedger => 1 case Hourly => 720 case Daily => 17_280;
            && Total(j, Window(id, from, length)) <= 2 * c.limit
            && OpeningOf(j, id) <= s.world.ledger
            && Total(j, Debits(id)) <= c.limit * ((s.world.ledger - OpeningOf(j, id)) / length + 1)
  {
    hide Sound, Run, Total, OpeningOf, Rates.Paced;
    ReachableIsFine(start, ops);
    var s := Run(start, ops);
    ChannelFacts(s, id);
    Rates.PaceBounds(s.journal, id, s.channels[id], s.world.ledger, from);
  }

  /** Every stored amount is an i128, so the additions the code leaves unguarded
      cannot overflow. */
  lemma StoredAmountsFit(start: State, ops: seq<Op>, k: Key)
    requires Fresh(start) && k in Run(start, ops).allocations
    ensures var s := Run(start, ops);
            && k.channel in s.channels
            && 0 <= s.allocations[k].amount <= s.channels[k.channel].reserved
            && s.channels[k.channel].reserved <= s.channels[k.channel].collateral <= I128_MAX
            && 0 <= s.allocations[k].settled <= I128_MAX
            && 0 <= s.channels[k.channel].totalSpent <= I128_MAX
            && 0 <= s.channels[k.channel].spent <= s.channels[k.channel].limit <= I128_MAX
            && (k in s.settlements ==> 0 < s.settlements[k].first <= s.settlements[k].best <= s.allocations[k].amount)
  {
    hide Sound, Run, Rates.Paced;
    ReachableIsFine(start, ops);
    var s := Run(start, ops);
    AllocationFits(s, k);
    ChannelFacts(s, k.channel);
    SettledFits(s, k);
    if k in s.settlements {
      SettlementFacts(s, k);
    }
  }

  lemma SettledFits(s: State, k: Key)
    requires Sound(s) && k in s.allocations && k.channel in s.channels
    ensures s.allocations[k].settled <= s.channels[k.channel].totalSpent
  {
    hide ChannelsOk, SettlementsOk, Reserved, Telescoped, Paced, Rates.Paced;
    assert Balanced(s.channels, s.allocations, s.journal, k.channel);
    var settled := SettledOf(s.allocations, k.channel);
    SumBounds(settled);
    assert settled[k] == s.allocations[k].settled;
    Rates.NonNegativeTotal(s.journal, Debits(k.channel));
  }

  // ---- The dispute window on every run ----

  /** However the owner moves the window meanwhile, a close is never finalized
      within 720 ledgers of its opening. */
  lemma NoEarlyFinalize(s: State, closer: Address, k: Key, sequence: u64, amount: i128, signature: Bytes, ops: seq<Op>)
    requires Sound(s) && CloseUnilateral(s, closer, k.channel, k.recipient, sequence, amount, signature).Ok?
    requires forall op | op in ops :: !(op.OpFinalize? && Key(op.id, op.recipient) == k)
    ensures var end := Run(CloseUnilateral(s, closer, k.channel, k.recipient, sequence, amount, signature).value.0, ops);
            Finalize(end, k.channel, k.recipient).Ok? ==>
              s.world.ledger + 720 <= end.world.ledger
  {
    hide Sound, Run, Rates.Paced;
    UnilateralKeeps(s, closer, k.channel, k.recipient, sequence, amount, signature);
    ClosedAt(s, closer, k, sequence, amount, signature);
    hide CloseUnilateral, Encode, PayOut;
    var closing := CloseUnilateral(s, closer, k.channel, k.recipient, sequence, amount, signature).value.0;
    RunKeeps(closing, ops);
    SettlementFacts(closing, k);
    CloseTakesBest(closing, ops, k);
    var end := Run(closing, ops);
    if Finalize(end, k.channel, k.recipient).Ok? {
      ChannelFacts(end, k.channel);
    }
  }

  lemma ClosedAt(s: State, closer: Address, k: Key, sequence: u64, amount: i128, signature: Bytes)
    requires CloseUnilateral(s, closer, k.channel, k.recipient, sequence, amount, signature).Ok?
    ensures var s' := CloseUnilateral(s, closer, k.channel, k.recipient, sequence, amount, signature).value.0;
            && k !in s.settlements && k in s'.settlements && s'.allocations == s.allocations
            && s'.settlements[k].openedAt == s.world.ledger
            && s'.settlements[k].best == s'.settlements[k].first == amount
            && s' == s.(settlements := s'.settlements) && s.settlements == s'.settlements - {k}
  {
    hide Encode;
    var s' := CloseUnilateral(s, closer, k.channel, k.recipient, sequence, amount, signature).value.0;
    assert s'.settlements - {k} == s.settlements;
  }

  // ---- Challenges in any order ----

  ghost predicate OnlyChallenges(ops: seq<Op>, k: Key) {
    forall op | op in ops :: op.OpChallenge? && Key(op.id, op.recipient) == k
  }

  /** A challenge does not change what any other challenge is worth. */
  lemma ChallengeKeepsOffers(s: State, op: Op, other: Op, k: Key)
    requires op.OpChallenge? && Key(op.id, op.recipient) == k
    ensures Offered(Apply(s, op), other, k) == Offered(s, other, k)
  {
    hide Encode;
  }

  /** A batch of challenges ends at the largest good one of them. */
  lemma {:induction false} BatchTakesLargest(s: State, ops: seq<Op>, k: Key)
    requires OnlyChallenges(ops, k)
    ensures forall op | op in ops :: Offered(s, op, k) <= BestOffered(s, ops, k)
    ensures BestOffered(s, ops, k) == 0 || exists op | op in ops :: BestOffered(s, ops, k) == Offered(s, op, k)
    decreases |ops|
  {
    if ops != [] {
      var s', rest := Apply(s, ops[0]), ops[1..];
      BatchTakesLargest(s', rest, k);
      forall op | op in ops
        ensures Offered(s', op, k) == Offered(s, op, k)
      {
        ChallengeKeepsOffers(s, ops[0], op, k);
      }
      assert ops[0] in ops;
      assert forall op | op in ops :: op == ops[0] || op in rest;
    }
  }

  lemma NoNegativeOffer(s: State, op: Op, k: Key)
    ensures 0 <= Offered(s, op, k)
  {
    hide Encode;
  }

  /** The same vouchers in any other order, or repeated, lead to the same payout. */
  lemma OrderDoesNotMatter(s: State, ops: seq<Op>, ops': seq<Op>, k: Key)
    requires Sound(s) && k in s.settlements
    requires OnlyChallenges(ops, k) && OnlyChallenges(ops', k)
    requires forall op :: op in ops <==> op in ops'
    ensures k in s.allocations
    ensures var end, end' := Run(s, ops), Run(s, ops');
            && k in end.settlements && k in end.allocations
            && k in end'.settlements && k in end'.allocations
            && end.settlements[k].best == end'.settlements[k].best
            && Payout(end, k) == Payout(end', k)
  {
    SettlementFacts(s, k);
    hide Sound, Offered;
    CloseTakesBest(s, ops, k);
    CloseTakesBest(s, ops', k);
    BatchTakesLargest(s, ops, k);
    BatchTakesLargest(s, ops', k);
    forall op ensures 0 <= Offered(s, op, k) { NoNegativeOffer(s, op, k); }
    BestOfferedIsNotNegative(s, ops, k);
    BestOfferedIsNotNegative(s, ops', k);
  }

  lemma {:induction false} BestOfferedIsNotNegative(s: State, ops: seq<Op>, k: Key)
    ensures 0 <= BestOffered(s, ops, k)
    decreases |ops|
  {
    if ops != [] {
      BestOfferedIsNotNegative(Apply(s, ops[0]), ops[1..], k);
    }
  }

  // ---- Cooperative and unilateral closes agree ----

  /** A cooperative close is its checks and a payout without penalty. */
  lemma CooperativeIsPayOut(s: State, k: Key, sequence: u64, amount: i128, signature: Bytes)
    requires !s.world.paused && k.channel in s.channels && s.channels[k.channel].owner != s.env.self && k.recipient != s.env.self
    requires VerifyVoucher(s, s.channels[k.channel], k, sequence, amount, signature).Ok? && k !in s.settlements
    ensures var r, p := CloseCooperative(s, k.channel, k.recipient, sequence, amount, signature), PayOut(s, k, amount, 0);
            if p.Ok? then r == Ok((p.value, amount)) else r == Err(p.error)
  {
    hide VerifyVoucher, PayOut;
  }

  /** What an accepted unilateral close was checked for; none of it is time. */
  lemma UnilateralChecks(s: State, closer: Address, k: Key, sequence: u64, amount: i128, signature: Bytes, later: u32)
    requires CloseUnilateral(s, closer, k.channel, k.recipient, sequence, amount, signature).Ok?
    ensures !s.world.paused && k.channel in s.channels && k in s.allocations && k !in s.settlements
    ensures VerifyVoucher(s.(world := s.world.(ledger := later)), s.channels[k.channel], k, sequence, amount, signature).Ok?
  {
    hide Encode;
  }

  /** Closing unilaterally, waiting out the window unchallenged and finalizing
      leaves exactly what a cooperative close with the same voucher leaves at
      that later ledger, and pays the same. */
  lemma UnchallengedEqualsCooperative(s: State, closer: Address, k: Key, sequence: u64, amount: i128,
                                      signature: Bytes, later: u32)
    requires Sound(s) && k.recipient != s.env.self
    requires CloseUnilateral(s, closer, k.channel, k.recipient, sequence, amount, signature).Ok?
    requires var s1 := CloseUnilateral(s, closer, k.channel, k.recipient, sequence, amount, signature).value.0;
             Finalize(s1.(world := s1.world.(ledger := later)), k.channel, k.recipient).Ok?
    ensures var s1 := CloseUnilateral(s, closer, k.channel, k.recipient, sequence, amount, signature).value.0;
            Finalize(s1.(world := s1.world.(ledger := later)), k.channel, k.recipient)
            == CloseCooperative(s.(world := s.world.(ledger := later)), k.channel, k.recipient, sequence, amount, signature)
  {
    hide Sound, PayOut, Encode, Rates.Paced, CloseUnilateral, CloseCooperative, Finalize, VerifyVoucher, FinalizeWindow;
    ClosedAt(s, closer, k, sequence, amount, signature);
    UnilateralChecks(s, closer, k, sequence, amount, signature, later);
    ChannelFacts(s, k.channel);
    var s1 := CloseUnilateral(s, closer, k.channel, k.recipient, sequence, amount, signature).value.0;
    var waited, agreed := s1.(world := s.world.(ledger := later)), s.(world := s.world.(ledger := later));
    assert waited.(settlements := waited.settlements - {k}) == agreed;
    FinalizeUnfolds(waited, k);
    CooperativeIsPayOut(agreed, k, sequence, amount, signature);
  }

  // ---- Payouts commute ----

  lemma TransfersCommute(b: Balances, from: Address, tokenA: Address, toA: Address, amountA: int,
                         tokenB: Address, toB: Address, amountB: int)
    requires Solvent(b)
    requires Transfer(b, tokenA, from, toA, amountA).Ok?
    requires Transfer(Transfer(b, tokenA, from, toA, amountA).value, tokenB, from, toB, amountB).Ok?
    requires amountB <= BalanceOf(b, tokenB, from)
             && (tokenA == tokenB ==> amountA + amountB <= BalanceOf(b, tokenB, from))
    ensures var r := Transfer(b, tokenB, from, toB, amountB);
            && r.Ok?
            && Transfer(r.value, tokenA, from, toA, amountA)
               == Transfer(Transfer(b, tokenA, from, toA, amountA).value, tokenB, from, toB, amountB)
  {
    var ab := Transfer(Transfer(b, tokenA, from, toA, amountA).value, tokenB, from, toB, amountB).value;
    var r := Transfer(b, tokenB, from, toB, amountB);
    assert r.Ok?;
    var ba := Transfer(r.value, tokenA, from, toA, amountA);
    assert ba.Ok?;
    assert ab.Keys == ba.value.Keys;
    forall h | h in ab
      ensures ab[h] == ba.value[h]
    {
      assert BalanceOf(ab, h.token, h.holder) == BalanceOf(ba.value, h.token, h.holder);
    }
    assert ab == ba.value;
  }

  /** A state without the order in which its journal was written. */
  function Core(s: State): State {
    s.(journal := [])
  }

  /** Due within what the channel and the contract hold, also after another payout. */
  ghost predicate Covered(s: State, a: Key, dueA: int, b: Key, dueB: int)
    requires a.channel in s.channels && b.channel in s.channels
  {
    var ca, cb := s.channels[a.channel], s.channels[b.channel];
    var held := BalanceOf(s.world.balances, cb.token, s.env.self);
    && 0 <= dueA && 0 <= dueB
    && dueB <= cb.collateral && dueB <= held
    && (a.channel == b.channel ==> dueA + dueB <= cb.collateral)
    && (ca.token == cb.token ==> dueA + dueB <= held)
  }

  function Charged(channels: map<u64, Channel>, id: u64, released: int, due: int): map<u64, Channel>
    requires id in channels
  {
    var c := channels[id];
    channels[id := c.(reserved := c.reserved - released, collateral := c.collateral - due, totalSpent := c.totalSpent + due)]
  }

  /** A payout, taken apart. */
  lemma PayOutParts(s: State, k: Key, amount: int, penalty: int)
    requires k in s.allocations && k.channel in s.channels
    requires 0 <= amount - s.allocations[k].settled + penalty <= s.channels[k.channel].collateral
    ensures var c, a := s.channels[k.channel], s.allocations[k];
            var due := amount - a.settled + penalty;
            var moved := Transfer(s.world.balances, c.token, s.env.self, k.recipient, due);
            var r := PayOut(s, k, amount, penalty);
            && (r.Ok? <==> moved.Ok? && c.totalSpent + due <= I128_MAX)
            && (r.Ok? ==> r.value == s.(world := s.world.(balances := moved.value),
                                        channels := Charged(s.channels, k.channel, a.amount, due),
                                        allocations := s.allocations[k := Allocation(0, amount + penalty)],
                                        journal := r.value.journal))
  {
    hide Transfer;
  }

  lemma ChargesCommute(channels: map<u64, Channel>, a: u64, releasedA: int, dueA: int, b: u64, releasedB: int, dueB: int)
    requires a in channels && b in channels
    ensures Charged(Charged(channels, a, releasedA, dueA), b, releasedB, dueB)
         == Charged(Charged(channels, b, releasedB, dueB), a, releasedA, dueA)
  {}

  /** Two payouts in a row, taken apart. */
  lemma PayOutTwice(s: State, a: Key, amountA: int, penaltyA: int, b: Key, amountB: int, penaltyB: int)
    requires a != b
    requires a in s.allocations && a.channel in s.channels && b in s.allocations && b.channel in s.channels
    requires Covered(s, b, amountB - s.allocations[b].settled + penaltyB, a, amountA - s.allocations[a].settled + penaltyA)
    requires Covered(s, a, amountA - s.allocations[a].settled + penaltyA, b, amountB - s.allocations[b].settled + penaltyB)
    ensures var dueA, dueB := amountA - s.allocations[a].settled + penaltyA, amountB - s.allocations[b].settled + penaltyB;
            var ca, cb := s.channels[a.channel], s.channels[b.channel];
            var ra := PayOut(s, a, amountA, penaltyA);
            var ma := Transfer(s.world.balances, ca.token, s.env.self, a.recipient, dueA);
            && (ra.Ok? <==> ma.Ok? && ca.totalSpent + dueA <= I128_MAX)
            && (ra.Ok? ==>
                  var rab := PayOut(ra.value, b, amountB, penaltyB);
                  var mab := Transfer(ma.value, cb.token, s.env.self, b.recipient, dueB);
                  && (rab.Ok? <==> mab.Ok? && cb.totalSpent + (if a.channel == b.channel then dueA else 0) + dueB <= I128_MAX)
                  && (rab.Ok? ==>
                        && rab.value.world == s.world.(balances := mab.value)
                        && rab.value.channels == Charged(Charged(s.channels, a.channel, s.allocations[a].amount, dueA),
                                                         b.channel, s.allocations[b].amount, dueB)
                        && rab.value.allocations == s.allocations[a := Allocation(0, amountA + penaltyA)]
                                                                 [b := Allocation(0, amountB + penaltyB)]
                        && Core(rab.value) == Core(s).(world := rab.value.world, channels := rab.value.channels,
                                                       allocations := rab.value.allocations)))
  {
    hide PayOut, Transfer;
    PayOutParts(s, a, amountA, penaltyA);
    if PayOut(s, a, amountA, penaltyA).Ok? {
      PayOutParts(PayOut(s, a, amountA, penaltyA).value, b, amountB, penaltyB);
    }
  }

  lemma PayOutsCommute(s: State, a: Key, amountA: int, penaltyA: int, b: Key, amountB: int, penaltyB: int)
    requires a != b && Solvent(s.world.balances)
    requires a in s.allocations && a.channel in s.channels && b in s.allocations && b.channel in s.channels
    requires Covered(s, b, amountB - s.allocations[b].settled + penaltyB, a, amountA - s.allocations[a].settled + penaltyA)
    requires Covered(s, a, amountA - s.allocations[a].settled + penaltyA, b, amountB - s.allocations[b].settled + penaltyB)
    requires PayOut(s, a, amountA, penaltyA).Ok?
    requires PayOut(PayOut(s, a, amountA, penaltyA).value, b, amountB, penaltyB).Ok?
    ensures var rb := PayOut(s, b, amountB, penaltyB);
            && rb.Ok?
            && var rba := PayOut(rb.value, a, amountA, penaltyA);
               && rba.Ok?
               && Core(rba.value) == Core(PayOut(PayOut(s, a, amountA, penaltyA).value, b, amountB, penaltyB).value)
  {
    hide PayOut, Transfer, Charged, Solvent;
    PayOutTwice(s, a, amountA, penaltyA, b, amountB, penaltyB);
    PayOutTwice(s, b, amountB, penaltyB, a, amountA, penaltyA);
    var dueA, dueB := amountA - s.allocations[a].settled + penaltyA, amountB - s.allocations[b].settled + penaltyB;
    TransfersCommute(s.world.balances, s.env.self, s.channels[a.channel].token, a.recipient, dueA,
                     s.channels[b.channel].token, b.recipient, dueB);
    ChargesCommute(s.channels, a.channel, s.allocations[a].amount, dueA, b.channel, s.allocations[b].amount, dueB);
    assert s.allocations[a := Allocation(0, amountA + penaltyA)][b := Allocation(0, amountB + penaltyB)]
        == s.allocations[b := Allocation(0, amountB + penaltyB)][a := Allocation(0, amountA + penaltyA)];
  }

  /** Two closes in flight can be covered together. */
  lemma ClosesAreCovered(s: State, a: Key, b: Key)
    requires Inv(s) && a != b && a in s.settlements && b in s.settlements
    ensures a in s.allocations && b in s.allocations && a.channel in s.channels && b.channel in s.channels
    ensures Covered(s, a, Payout(s, a) - s.allocations[a].settled, b, Payout(s, b) - s.allocations[b].settled)
  {
    SettlementFacts(s, a);
    SettlementFacts(s, b);
    assert AllocationsOk(s.channels, s.allocations) && Reserved(s.channels, s.allocations);
    assert Custody(s.env.self, s.world.balances, s.channels);
    assert ChannelsOk(s.env.self, s.world.ledger, s.channels, s.count);
    hide Sound, AllocationsOk, Reserved, Custody, ChannelsOk;
    CollateralTogether(s, a, b);
    PenaltyBounds(s.world.ledger, s.settlements[a], s.allocations[a]);
    PenaltyBounds(s.world.ledger, s.settlements[b], s.allocations[b]);
  }

  /** What two allocations reserve is there twice over: within one channel's
      collateral, and within the contract's balance of their token. */
  lemma CollateralTogether(s: State, a: Key, b: Key)
    requires a != b && a in s.allocations && b in s.allocations
    requires AllocationsOk(s.channels, s.allocations) && Reserved(s.channels, s.allocations)
    requires ChannelsOk(s.env.self, s.world.ledger, s.channels, s.count)
    requires Custody(s.env.self, s.world.balances, s.channels)
    ensures var ca, cb := s.channels[a.channel], s.channels[b.channel];
            var x, y := s.allocations[a].amount, s.allocations[b].amount;
            var held := BalanceOf(s.world.balances, cb.token, s.env.self);
            && y <= cb.collateral <= held
            && (a.channel == b.channel ==> x + y <= cb.collateral)
            && (ca.token == cb.token ==> x + y <= held)
  {
    var cb := s.channels[b.channel];
    AllocationWithinReserved(s.channels, s.allocations, a);
    AllocationWithinReserved(s.channels, s.allocations, b);
    var amounts := AmountsOf(s.allocations, b.channel);
    var held := CollateralIn(s.channels, cb.token);
    PairWithinSum(amounts, a, b);
    PairWithinSum<u64>(held, a.channel, b.channel);
    assert Sum<u64>(held) <= BalanceOf(s.world.balances, cb.token, s.env.self);
    assert a.channel == b.channel ==> amounts[a] == s.allocations[a].amount;
    assert amounts[b] == s.allocations[b].amount;
    assert held[b.channel] == cb.collateral;
  }

  lemma PairWithinSum<K>(m: map<K, int>, a: K, b: K)
    requires forall k | k in m :: 0 <= m[k]
    ensures b in m ==> m[b] <= Sum(m)
    ensures a != b && a in m && b in m ==> m[a] + m[b] <= Sum(m)
  {
    SumBounds(m);
    if a in m && b in m && a != b {
      SumWithout(m, a);
      SumBounds(m - {a});
      assert (m - {a})[b] == m[b];
    }
  }

  /** A payout neither reads nor writes the settlements. */
  lemma PayOutIgnoresSettlements(s: State, k: Key, amount: int, penalty: int, others: map<Key, Settlement>)
    ensures var r, p := PayOut(s, k, amount, penalty), PayOut(s.(settlements := others), k, amount, penalty);
            && (r.Ok? <==> p.Ok?)
            && (r.Ok? ==> p.value.settlements == others && r.value == p.value.(settlements := s.settlements))
  {
    hide Transfer;
  }

  /** A finalization is a payout that does not read the other settlements. */
  lemma FinalizeIsPayOut(s: State, k: Key, others: map<Key, Settlement>)
    requires k in s.settlements && k in s.allocations && k.channel in s.channels
    ensures var st := s.settlements[k];
            var r := Finalize(s, k.channel, k.recipient);
            var p := PayOut(s.(settlements := others), k, st.best, Penalty(s.allocations[k].amount, st));
            && (r.Ok? <==> FinalizeWindow(s, k) && p.Ok?)
            && (r.Ok? ==> r.value.0 == p.value.(settlements := s.settlements - {k}) && r.value.1 == Payout(s, k))
            && (p.Ok? ==> p.value.settlements == others)
  {
    hide Finalize, PayOut, Penalty, FinalizeWindow;
    FinalizeUnfolds(s, k);
    var st := s.settlements[k];
    PayOutIgnoresSettlements(s.(settlements := s.settlements - {k}), k, st.best, Penalty(s.allocations[k].amount, st), others);
  }

  /** What a payout leaves as it was for another key. */
  lemma PayOutLeaves(s: State, k: Key, amount: int, penalty: int, other: Key)
    requires PayOut(s, k, amount, penalty).Ok? && other != k && other in s.allocations && other.channel in s.channels
    ensures var s' := PayOut(s, k, amount, penalty).value;
            && other in s'.allocations && s'.allocations[other] == s.allocations[other]
            && other.channel in s'.channels && s'.channels[other.channel].dispute == s.channels[other.channel].dispute
            && s'.world.ledger == s.world.ledger
  {
    hide Transfer;
  }

  /** Finalizing `a` and then `b` succeeds, pays `x` and `y` and ends in `end`. */
  ghost predicate FinalizeBoth(s: State, a: Key, b: Key, end: State, x: int, y: int) {
    var first := Finalize(s, a.channel, a.recipient);
    && first.Ok? && first.value.1 == x
    && Finalize(first.value.0, b.channel, b.recipient) == Ok((end, y))
  }

  /** The two payouts behind it, the settlements set aside. */
  ghost predicate PayBoth(s: State, a: Key, b: Key, end: State)
    requires a in s.settlements && a in s.allocations && b in s.settlements && b in s.allocations
  {
    var first := PayOut(s.(settlements := s.settlements - {a} - {b}), a, s.settlements[a].best,
                        Penalty(s.allocations[a].amount, s.settlements[a]));
    && first.Ok?
    && PayOut(first.value, b, s.settlements[b].best, Penalty(s.allocations[b].amount, s.settlements[b])) == Ok(end)
  }

  lemma FinalizePair(s: State, a: Key, b: Key, end: State, x: int, y: int)
    requires a != b && a in s.settlements && a in s.allocations && a.channel in s.channels
    requires b in s.settlements && b in s.allocations && b.channel in s.channels
    ensures FinalizeBoth(s, a, b, end, x, y) <==>
              && FinalizeWindow(s, a) && FinalizeWindow(s, b) && x == Payout(s, a) && y == Payout(s, b)
              && PayBoth(s, a, b, end)
  {
    hide Finalize, PayOut, Penalty;
    var rest := s.settlements - {a} - {b};
    FinalizeIsPayOut(s, a, rest);
    if Finalize(s, a.channel, a.recipient).Ok? {
      var both := s.(settlements := rest);
      var sa := Finalize(s, a.channel, a.recipient).value.0;
      PayOutLeaves(both, a, s.settlements[a].best, Penalty(s.allocations[a].amount, s.settlements[a]), b);
      FinalizeIsPayOut(sa, b, rest);
      assert sa.(settlements := rest) == PayOut(both, a, s.settlements[a].best, Penalty(s.allocations[a].amount, s.settlements[a])).value;
    }
  }

  /** Setting the two settlements aside changes nothing about what covers them. */
  lemma SetAside(s: State, a: Key, b: Key)
    requires Inv(s) && a != b && a in s.settlements && b in s.settlements
    ensures a in s.allocations && a.channel in s.channels && b in s.allocations && b.channel in s.channels
    ensures Covered(s.(settlements := s.settlements - {a} - {b}),
                    a, s.settlements[a].best - s.allocations[a].settled + Penalty(s.allocations[a].amount, s.settlements[a]),
                    b, s.settlements[b].best - s.allocations[b].settled + Penalty(s.allocations[b].amount, s.settlements[b]))
  {
    hide Sound, Penalty;
    ClosesAreCovered(s, a, b);
  }

  lemma PayBothCommutes(s: State, a: Key, b: Key, end: State)
    requires Inv(s) && a != b && a in s.settlements && b in s.settlements
    requires a in s.allocations && a.channel in s.channels && b in s.allocations && b.channel in s.channels
    requires PayBoth(s, a, b, end)
    ensures exists end' :: PayBoth(s, b, a, end') && Core(end') == Core(end)
  {
    hide Sound, Solvent, PayOut, Covered, Penalty, Core;
    var both := s.(settlements := s.settlements - {a} - {b});
    SetAside(s, a, b);
    SetAside(s, b, a);
    assert both == s.(settlements := s.settlements - {b} - {a});
    BalancesAreSolvent(s);
    var penaltyA, penaltyB := Penalty(s.allocations[a].amount, s.settlements[a]), Penalty(s.allocations[b].amount, s.settlements[b]);
    PayOutsCommute(both, a, s.settlements[a].best, penaltyA, b, s.settlements[b].best, penaltyB);
    var end' := PayOut(PayOut(both, b, s.settlements[b].best, penaltyB).value, a, s.settlements[a].best, penaltyA).value;
    assert PayBoth(s, b, a, end');
  }

  /** Finalizing two recipients in either order succeeds alike and gives the same
      channels, allocations, balances and payouts. */
  lemma FinalizesCommute(s: State, a: Key, b: Key, end: State, x: int, y: int)
    requires Inv(s) && a != b && a in s.settlements && b in s.settlements
    requires FinalizeBoth(s, a, b, end, x, y)
    ensures exists end' :: FinalizeBoth(s, b, a, end', y, x) && Core(end') == Core(end)
  {
    hide Sound, FinalizeWindow, FinalizeBoth, PayBoth, Core, Payout;
    SettlementFacts(s, a);
    SettlementFacts(s, b);
    FinalizePair(s, a, b, end, x, y);
    PayBothCommutes(s, a, b, end);
    var end' :| PayBoth(s, b, a, end') && Core(end') == Core(end);
    FinalizePair(s, b, a, end', y, x);
  }

  // ---- Allocations after a payout ----

  ghost predicate Signable(env: Env, signer: Bytes, message: Bytes) {
    exists signature :: env.verify(signer, message, signature)
  }

  ghost predicate SomeVoucherVerifies(s: State, k: Key)
    requires k.channel in s.channels
  {
    exists q: u64, n: i128, g :: VerifyVoucher(s, s.channels[k.channel], k, q, n, g).Ok?
  }

  /** For a key that can sign at all, some voucher is accepted exactly when the
      allocation exceeds everything settled before. */
  lemma AllocationClaimableIff(s: State, k: Key)
    requires Sound(s) && k in s.allocations && k.channel in s.channels && s.channels[k.channel].signer.Some?
    requires forall m :: Signable(s.env, s.channels[k.channel].signer.value, m)
    ensures SomeVoucherVerifies(s, k) <==> s.allocations[k].settled < s.allocations[k].amount
  {
    hide Sound, Encode, VerifyVoucher;
    var c, a := s.channels[k.channel], s.allocations[k];
    AllocationFits(s, k);
    if a.settled < a.amount {
      var m := Encode(ClaimOf(s.env, k.channel, k.recipient, 1, a.amount));
      assert Signable(s.env, c.signer.value, m);
      var g :| s.env.verify(c.signer.value, m, g);
      Keys.VerifiesIff(s, k, 1, a.amount, g);
      assert VerifyVoucher(s, c, k, 1, a.amount, g).Ok?;
    } else if SomeVoucherVerifies(s, k) {
      var q: u64, n: i128, g :| VerifyVoucher(s, c, k, q, n, g).Ok?;
      Keys.VerifiesIff(s, k, q, n, g);
      assert false;
    }
  }

  lemma AllocationFits(s: State, k: Key)
    requires Sound(s) && k in s.allocations
    ensures k.channel in s.channels
    ensures 0 <= s.allocations[k].settled
    ensures 0 <= s.allocations[k].amount <= s.channels[k.channel].reserved <= s.channels[k.channel].collateral <= I128_MAX
  {
    hide Sound, AllocationsOk, Reserved, ChannelsOk, AmountsOf, Rates.Paced;
    Reservations(s);
    SettledIsNotNegative(s, k);
    AllocationWithinReserved(s.channels, s.allocations, k);
    ChannelFacts(s, k.channel);
  }

  /** An allocation made after a payout, and not above what was settled, pays
      nothing at all: no voucher closes the channel with it, cooperatively or not. */
  lemma FreshAllocationCanBeDead(s: State, k: Key, closer: Address, q: u64, n: i128, g: Bytes)
    requires k in s.allocations && s.allocations[k].amount <= s.allocations[k].settled
    ensures CloseCooperative(s, k.channel, k.recipient, q, n, g).Err?
    ensures CloseUnilateral(s, closer, k.channel, k.recipient, q, n, g).Err?
  {
    hide Encode;
  }

  /** The design note's bound: no more settled with a recipient than is allocated to it. */
  predicate SettledWithinAllocation(s: State, k: Key) {
    k in s.allocations ==> s.allocations[k].settled <= s.allocations[k].amount
  }

  predicate PaysOut(op: Op, k: Key) {
    (op.OpCooperative? || op.OpFinalize?) && Key(op.id, op.recipient) == k
  }

  lemma PayoutBreaksBound(s: State, op: Op, k: Key)
    requires Sound(s) && PaysOut(op, k) && Step(s, op).Ok?
    ensures !SettledWithinAllocation(Apply(s, op), k)
  {
    hide Sound, PayOut, VerifyVoucher;
    if op.OpCooperative? {
      VoucherFacts(s, s.channels[op.id], k, op.sequence, op.amount, op.signature);
      SettledIsNotNegative(s, k);
      PayoutResets(s, k, op.amount, 0);
    } else {
      SettlementFacts(s, k);
      PenaltyBounds(s.world.ledger, s.settlements[k], s.allocations[k]);
      PayoutResets(s.(settlements := s.settlements - {k}), k, s.settlements[k].best,
                   Penalty(s.allocations[k].amount, s.settlements[k]));
    }
  }

  lemma OthersKeepBound(s: State, op: Op, k: Key)
    requires SettledWithinAllocation(s, k) && Targets(op, k) && !PaysOut(op, k)
    ensures SettledWithinAllocation(Apply(s, op), k)
  {
    hide Encode, VerifyVoucher;
  }

  /** Every successful payout breaks the bound for its recipient, and nothing else does. */
  lemma BoundBrokenIff(s: State, op: Op, k: Key)
    requires Sound(s) && SettledWithinAllocation(s, k)
    ensures SettledWithinAllocation(Apply(s, op), k) <==> !(PaysOut(op, k) && Step(s, op).Ok?)
  {
    hide Sound, Step;
    if PaysOut(op, k) {
      if Step(s, op).Ok? {
        PayoutBreaksBound(s, op, k);
      }
    } else if Targets(op, k) {
      OthersKeepBound(s, op, k);
    } else {
      StepSpares(s, op, k);
    }
  }

  lemma SettledIsNotNegative(s: State, k: Key)
    requires Sound(s) && k in s.allocations
    ensures k.channel in s.channels && 0 <= s.allocations[k].settled && 0 <= s.allocations[k].amount
  {
    hide ChannelsOk, SettlementsOk, JournalOk, Reserved, Books, Telescoped, Paced;
    assert AllocationsOk(s.channels, s.allocations);
  }

  lemma PayoutResets(s: State, k: Key, amount: int, penalty: int)
    requires PayOut(s, k, amount, penalty).Ok?
    ensures var t := PayOut(s, k, amount, penalty).value;
            k in t.allocations && t.allocations[k] == Allocation(0, amount + penalty)
  {
    hide Transfer;
  }

  // ---- Single transactions, from outside ----

  /** While custody holds an on-chain payment is payable, so only the
      terms decide: who asks, the period's limit, and what is free. */
  lemma PaySucceedsIff(s: State, agent: Address, id: u64, recipient: Address, amount: i128)
    requires Inv(s)
    ensures Pay(s, agent, id, recipient, amount).Ok? <==>
              && !s.world.paused && agent != s.env.self && id in s.channels
              && var c := s.channels[id];
                 var end := c.periodStart + match c.period case PerLedger => 1 case Hourly => 720 case Daily => 17_280;
                 var spent := if s.world.ledger >= end then 0 else c.spent;
                 c.active && c.agent == agent && 0 < amount && end <= U32_MAX
                 && spent + amount <= c.limit && amount <= c.collateral - c.reserved
                 && c.totalSpent + amount <= I128_MAX
                 && (recipient == s.env.self || BalanceOf(s.world.balances, c.token, recipient) + amount <= I128_MAX)
  {
    hide Rates.Paced;
    if id in s.channels {
      ChannelFacts(s, id);
      CollateralHeld(s, id);
    }
    assert Solvent(s.world.balances);
    hide Sound, Solvent;
  }
}
