/** The dispute protocol over whole runs: who can disturb a close in flight, what
    it finally pays, and when. */
module ChannelDisputes {
  import opened Base
  import opened Tokens
  import opened Voucher
  import opened ChannelModel
  import opened ChannelInvariant

  /** What `finalize` hands the recipient in total. */
  function Payout(s: State, k: Key): int
    requires k in s.settlements && k in s.allocations
  {
    s.settlements[k].best + Penalty(s.allocations[k].amount, s.settlements[k])
  }

  // ---- The penalty ----

  /** The penalty is paid out of what the owner would reclaim, never out of
      anything else. */
  lemma PenaltyBounds(now: int, st: Settlement, a: Allocation)
    requires SettlementOk(now, st, a)
    ensures st.best <= st.best + Penalty(a.amount, st) <= a.amount
    ensures st.best == st.first || !st.byPayer ==> Penalty(a.amount, st) == 0
  {}

  /** What the owner gets back of an allocation closed at `first` and settled at `best`. */
  function Remainder(amount: int, st: Settlement): int {
    amount - st.best - Penalty(amount, st)
  }

  /** Among closes that end at the same best voucher, the owner's remainder never
      grows with the understatement, and one that was challenged costs the payer
      something exactly when there is anything left to reclaim. */
  lemma ChallengedUnderstatementNeverPays(now: int, a: Allocation, honest: Settlement, stale: Settlement)
    requires SettlementOk(now, honest, a) && SettlementOk(now, stale, a)
    requires honest.byPayer && stale.byPayer && honest.best == stale.best && stale.first <= honest.first
    ensures Remainder(a.amount, stale) <= Remainder(a.amount, honest)
    ensures stale.first < stale.best ==>
              (Remainder(a.amount, stale) < a.amount - stale.best <==> stale.best < a.amount)
  {}

  // ---- When a close can be challenged, and when finalized ----

  ghost predicate ChallengeWindow(s: State, k: Key)
    requires k in s.settlements && k.channel in s.channels
  {
    var end := s.settlements[k].openedAt + s.channels[k.channel].dispute;
    end <= U32_MAX && s.world.ledger < end
  }

  ghost predicate FinalizeWindow(s: State, k: Key)
    requires k in s.settlements && k.channel in s.channels
  {
    var end := s.settlements[k].openedAt + s.channels[k.channel].dispute;
    end <= U32_MAX && end <= s.world.ledger
  }

  /** The two windows never overlap. They cover every ledger exactly when the
      end of the window is a ledger number at all; otherwise the addition
      overflows and the close can be neither challenged nor finalized. */
  lemma WindowsPartition(s: State, k: Key)
    requires Sound(s) && k in s.settlements && k.channel in s.channels
    ensures !(ChallengeWindow(s, k) && FinalizeWindow(s, k))
    ensures ChallengeWindow(s, k) || FinalizeWindow(s, k)
            <==> s.settlements[k].openedAt + s.channels[k.channel].dispute <= U32_MAX
    ensures !FinalizeWindow(s, k) ==> Finalize(s, k.channel, k.recipient).Err?
    ensures forall q, n, g :: !ChallengeWindow(s, k) ==> Challenge(s, k.channel, k.recipient, q, n, g).Err?
  {
    hide Sound, Encode;
  }

  /** The contract holds at least the collateral of each single channel. */
  lemma CollateralHeld(s: State, id: u64)
    requires Inv(s) && id in s.channels
    ensures s.channels[id].collateral <= BalanceOf(s.world.balances, s.channels[id].token, s.env.self)
  {
    var token := s.channels[id].token;
    var held := CollateralIn(s.channels, token);
    assert ChannelsOk(s.env.self, s.world.ledger, s.channels, s.count);
    assert Custody(s.env.self, s.world.balances, s.channels);
    hide Sound;
    MapSum.SumBounds<u64>(held);
    assert held[id] == s.channels[id].collateral;
    assert MapSum.Sum<u64>(CollateralIn(s.channels, token)) <= BalanceOf(s.world.balances, token, s.env.self);
  }

  /** When a payout of `due` goes through, and what it moves. */
  lemma PayOutSucceeds(s: State, k: Key, amount: int, penalty: int)
    requires Solvent(s.world.balances) && k in s.allocations && k.channel in s.channels
    requires var due := amount - s.allocations[k].settled + penalty;
             0 <= due <= s.channels[k.channel].collateral
             && due <= BalanceOf(s.world.balances, s.channels[k.channel].token, s.env.self)
    ensures var c, due := s.channels[k.channel], amount - s.allocations[k].settled + penalty;
            var r := PayOut(s, k, amount, penalty);
            && (r.Ok? <==> c.totalSpent + due <= I128_MAX
                           && (k.recipient == s.env.self
                               || BalanceOf(s.world.balances, c.token, k.recipient) + due <= I128_MAX))
            && (r.Err? ==> r.error == Overflow || r.error == TransferRefused)
            && (r.Ok? ==> k.recipient != s.env.self ==>
                  BalanceOf(r.value.world.balances, c.token, k.recipient)
                  == BalanceOf(s.world.balances, c.token, k.recipient) + due)
  {}

  /** A finalization is its window and a payout. */
  lemma FinalizeUnfolds(s: State, k: Key)
    requires k in s.settlements && k in s.allocations && k.channel in s.channels
    ensures var r := Finalize(s, k.channel, k.recipient);
            var st := s.settlements[k];
            var p := PayOut(s.(settlements := s.settlements - {k}), k, st.best, Penalty(s.allocations[k].amount, st));
            && (r.Ok? <==> FinalizeWindow(s, k) && p.Ok?)
            && (r.Err? ==> r.error in {WindowOpen, Overflow} || (p.Err? && r.error == p.error))
            && (r.Ok? ==> r.value == (p.value, Payout(s, k)))
  {
    hide PayOut, Penalty;
  }

  /** While custody holds `finalize` succeeds exactly when the window is over
      and the money can be booked; it never finds nothing owed or too little
      collateral. */
  lemma FinalizeSucceeds(s: State, k: Key)
    requires Inv(s) && k in s.settlements
    ensures k in s.allocations && k.channel in s.channels
    ensures var c, due := s.channels[k.channel], Payout(s, k) - s.allocations[k].settled;
            var r := Finalize(s, k.channel, k.recipient);
            && 0 < due <= c.collateral
            && (r.Ok? <==> FinalizeWindow(s, k)
                           && c.totalSpent + due <= I128_MAX
                           && (k.recipient == s.env.self
                               || BalanceOf(s.world.balances, c.token, k.recipient) + due <= I128_MAX))
            && (r.Err? ==> r.error in {WindowOpen, Overflow, TransferRefused})
            && (r.Ok? ==>
                  && r.value.1 == Payout(s, k)
                  && (k.recipient != s.env.self ==>
                        BalanceOf(r.value.0.world.balances, c.token, k.recipient)
                        == BalanceOf(s.world.balances, c.token, k.recipient) + due))
  {
    SettlementFacts(s, k);
    ChannelFacts(s, k.channel);
    CollateralHeld(s, k.channel);
    assert AllocationsOk(s.channels, s.allocations) && Reserved(s.channels, s.allocations);
    AllocationWithinReserved(s.channels, s.allocations, k);
    assert Solvent(s.world.balances);
    hide Sound, AllocationsOk, Reserved, Solvent, PayOut, Finalize, FinalizeWindow, Penalty, ChannelInvariant.Rates.Paced;
    FinalizeUnfolds(s, k);
    var a, st := s.allocations[k], s.settlements[k];
    PenaltyBounds(s.world.ledger, st, a);
    PayOutSucceeds(s.(settlements := s.settlements - {k}), k, st.best, Penalty(a.amount, st));
  }

  // ---- Nobody else can disturb a close ----

  function Lookup<K, V>(m: map<K, V>, k: K): Option<V> {
    if k in m then Some(m[k]) else None
  }

  ghost predicate Targets(op: Op, k: Key) {
    match op
    case OpAllocate(_, id, r, _) => Key(id, r) == k
    case OpCooperative(id, r, _, _, _) => Key(id, r) == k
    case OpUnilateral(_, id, r, _, _, _) => Key(id, r) == k
    case OpChallenge(id, r, _, _, _) => Key(id, r) == k
    case OpFinalize(id, r) => Key(id, r) == k
    case _ => false
  }

  lemma PaymentSpares(s: State, op: Op)
    requires IsPayment(op)
    ensures Apply(s, op).allocations == s.allocations && Apply(s, op).settlements == s.settlements
  {
    hide Encode, ExecuteRoute, ExecuteConversion, SameAsset, Transfer, Permitted, RollPeriod, CheckSpend, VerifyVoucher;
  }

  /** Settling somebody else touches nothing of this recipient. */
  lemma FinalizeSpares(s: State, done: Key, k: Key)
    requires done != k && Finalize(s, done.channel, done.recipient).Ok?
    ensures var s' := Finalize(s, done.channel, done.recipient).value.0;
            Lookup(s'.allocations, k) == Lookup(s.allocations, k) && Lookup(s'.settlements, k) == Lookup(s.settlements, k)
  {
    hide Transfer;
  }

  lemma CooperativeSpares(s: State, id: u64, recipient: Address, sequence: u64, amount: i128, signature: Bytes, k: Key)
    requires Key(id, recipient) != k && CloseCooperative(s, id, recipient, sequence, amount, signature).Ok?
    ensures var s' := CloseCooperative(s, id, recipient, sequence, amount, signature).value.0;
            Lookup(s'.allocations, k) == Lookup(s.allocations, k) && Lookup(s'.settlements, k) == Lookup(s.settlements, k)
  {
    hide Transfer, VerifyVoucher;
  }

  lemma PlainSpares(s: State, op: Op, k: Key)
    requires !Targets(op, k) && !IsPayment(op) && !op.OpFinalize? && !op.OpCooperative?
    ensures Lookup(Apply(s, op).allocations, k) == Lookup(s.allocations, k)
    ensures Lookup(Apply(s, op).settlements, k) == Lookup(s.settlements, k)
  {
    hide Encode, Transfer, Permitted, VerifyVoucher;
  }

  /** A transaction about anything else leaves this recipient's allocation and
      close alone. */
  lemma StepSpares(s: State, op: Op, k: Key)
    requires !Targets(op, k)
    ensures Lookup(Apply(s, op).allocations, k) == Lookup(s.allocations, k)
    ensures Lookup(Apply(s, op).settlements, k) == Lookup(s.settlements, k)
  {
    hide PayOut, Finalize, CloseCooperative, VerifyVoucher;
    if IsPayment(op) {
      hide Step;
      PaymentSpares(s, op);
    } else if op.OpFinalize? {
      if Step(s, op).Ok? {
        FinalizeSpares(s, Key(op.id, op.recipient), k);
      }
    } else if op.OpCooperative? {
      if Step(s, op).Ok? {
        CooperativeSpares(s, op.id, op.recipient, op.sequence, op.amount, op.signature, k);
      }
    } else {
      hide Step;
      PlainSpares(s, op, k);
    }
  }

  /** Any interleaving of payments, withdrawals, closes of the channel, and
      allocations, closes, challenges and payouts for other recipients leaves
      what this recipient is owed, and will be paid, unchanged. */
  lemma {:induction false} RunSpares(s: State, ops: seq<Op>, k: Key)
    requires forall op | op in ops :: !Targets(op, k)
    ensures Lookup(Run(s, ops).allocations, k) == Lookup(s.allocations, k)
    ensures Lookup(Run(s, ops).settlements, k) == Lookup(s.settlements, k)
    ensures k in s.settlements && k in s.allocations ==> Payout(Run(s, ops), k) == Payout(s, k)
    decreases |ops|
  {
    if ops != [] {
      StepSpares(s, ops[0], k);
      RunSpares(Apply(s, ops[0]), ops[1..], k);
    }
  }

  // ---- A close from opening to payout ----

  /** What a challenge puts on the table: its amount, if the voucher is good and
      the window open. Whether it beats the best so far does not enter. */
  ghost function Offered(s: State, op: Op, k: Key): int {
    if op.OpChallenge? && Key(op.id, op.recipient) == k && k.channel in s.channels && k in s.settlements
       && VerifyVoucher(s, s.channels[k.channel], k, op.sequence, op.amount, op.signature).Ok?
       && ChallengeWindow(s, k)
    then op.amount else 0
  }

  ghost function BestOffered(s: State, ops: seq<Op>, k: Key): int
    decreases |ops|
  {
    if ops == [] then 0 else Max(Offered(s, ops[0], k), BestOffered(Apply(s, ops[0]), ops[1..], k))
  }

  /** Short of its own finalization, a close in flight only changes by taking
      the larger offer: allocation, opening claim, opening ledger and closer stand. */
  lemma StepTakesBest(s: State, op: Op, k: Key)
    requires k in s.settlements && k in s.allocations && 0 <= s.settlements[k].best
    requires !(op.OpFinalize? && Key(op.id, op.recipient) == k)
    ensures var s' := Apply(s, op);
            && Lookup(s'.allocations, k) == Some(s.allocations[k])
            && k in s'.settlements
            && var st, st' := s.settlements[k], s'.settlements[k];
               && st'.best == Max(st.best, Offered(s, op, k))
               && st' == st.(best := st'.best, bestSequence := st'.bestSequence)
  {
    if Targets(op, k) {
      hide Encode, Transfer, PayOut;
      if op.OpChallenge? {
        var r := Challenge(s, k.channel, k.recipient, op.sequence, op.amount, op.signature);
        assert r.Ok? <==> Offered(s, op, k) > s.settlements[k].best;
      }
    } else {
      StepSpares(s, op, k);
    }
  }

  /** Whatever else happens, a close ends up at the largest voucher that was
      good when submitted, in whatever order and number they came. */
  lemma {:induction false} CloseTakesBest(s: State, ops: seq<Op>, k: Key)
    requires k in s.settlements && k in s.allocations && 0 <= s.settlements[k].best
    requires forall op | op in ops :: !(op.OpFinalize? && Key(op.id, op.recipient) == k)
    ensures var s' := Run(s, ops);
            && Lookup(s'.allocations, k) == Some(s.allocations[k])
            && k in s'.settlements
            && var st, st' := s.settlements[k], s'.settlements[k];
               && st'.best == Max(st.best, BestOffered(s, ops, k))
               && st' == st.(best := st'.best, bestSequence := st'.bestSequence)
               && Payout(s', k) == st'.best + Penalty(s.allocations[k].amount, st.(best := st'.best))
    decreases |ops|
  {
    if ops != [] {
      StepTakesBest(s, ops[0], k);
      CloseTakesBest(Apply(s, ops[0]), ops[1..], k);
    }
  }

  /** How many of the run's challenges were accepted. */
  ghost function Accepted(s: State, ops: seq<Op>, k: Key): nat
    decreases |ops|
  {
    if ops == [] then 0
    else
      var hit := ops[0].OpChallenge? && Key(ops[0].id, ops[0].recipient) == k && Step(s, ops[0]).Ok?;
      (if hit then 1 else 0) + Accepted(Apply(s, ops[0]), ops[1..], k)
  }

  /** Every accepted challenge raises the best by at least one, so a close takes
      at most as many as fit between its opening claim and the allocation. */
  lemma {:induction false} ChallengesAreBounded(s: State, ops: seq<Op>, k: Key)
    requires Sound(s) && k in s.settlements
    requires forall op | op in ops :: !(op.OpFinalize? && Key(op.id, op.recipient) == k)
    ensures k in Run(s, ops).settlements && k in s.allocations
    ensures s.settlements[k].best + Accepted(s, ops, k) <= Run(s, ops).settlements[k].best <= s.allocations[k].amount
    decreases |ops|
  {
    hide Sound;
    SettlementFacts(s, k);
    if ops != [] {
      StepKeeps(s, ops[0]);
      StepTakesBest(s, ops[0], k);
      if ops[0].OpChallenge? && Key(ops[0].id, ops[0].recipient) == k && Step(s, ops[0]).Ok? {
        AcceptedSupersedes(s, ops[0], k);
      }
      ChallengesAreBounded(Apply(s, ops[0]), ops[1..], k);
    }
  }

  lemma AcceptedSupersedes(s: State, op: Op, k: Key)
    requires k in s.settlements && op.OpChallenge? && Key(op.id, op.recipient) == k && Step(s, op).Ok?
    ensures s.settlements[k].best < Apply(s, op).settlements[k].best
  {
    hide Encode;
  }
}
