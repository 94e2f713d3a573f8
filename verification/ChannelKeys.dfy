/** What the owner can change about a channel, and what that does to vouchers and
    closes over whole runs. */
module ChannelKeys {
  import opened Base
  import opened Tokens
  import opened Voucher
  import opened ChannelModel
  import opened ChannelInvariant
  import opened ChannelDisputes

  // ---- What stays the same ----

  /** What never changes about a channel; and a closed one stays closed. */
  predicate SameChannel(c: Channel, c': Channel) {
    && c'.agent == c.agent && c'.owner == c.owner && c'.token == c.token
    && c'.limit == c.limit && c'.period == c.period && (c'.active ==> c.active)
  }

  predicate SameKey(c: Channel, c': Channel) {
    c'.signer == c.signer && c'.dispute == c.dispute
  }

  /** A call that sets this channel's key and window. */
  predicate Enables(op: Op, id: u64) {
    op.OpEnable? && op.id == id
  }

  ghost predicate Carries(s: State, t: State, id: u64) {
    t.env == s.env && id in s.channels && id in t.channels && SameChannel(s.channels[id], t.channels[id])
  }

  lemma PaymentCarries(s: State, op: Op, id: u64)
    requires id in s.channels && IsPayment(op)
    ensures Carries(s, Apply(s, op), id) && SameKey(s.channels[id], Apply(s, op).channels[id])
  {
    hide Encode, ExecuteRoute, ExecuteConversion, SameAsset, Transfer, Permitted, CheckSpend, VerifyVoucher;
  }

  lemma PayOutCarries(s: State, k: Key, amount: int, penalty: int, id: u64)
    requires id in s.channels && PayOut(s, k, amount, penalty).Ok?
    ensures var t := PayOut(s, k, amount, penalty).value;
            Carries(s, t, id) && SameKey(s.channels[id], t.channels[id])
  {
    hide Transfer;
  }

  lemma SettlingCarries(s: State, op: Op, id: u64)
    requires id in s.channels && Step(s, op).Ok? && (op.OpFinalize? || op.OpCooperative?)
    ensures Carries(s, Apply(s, op), id) && SameKey(s.channels[id], Apply(s, op).channels[id])
  {
    hide PayOut, VerifyVoucher, Carries, SameKey;
    var k := Key(op.id, op.recipient);
    if op.OpFinalize? {
      var st := s.settlements[k];
      PayOutCarries(s.(settlements := s.settlements - {k}), k, st.best, Penalty(s.allocations[k].amount, st), id);
      CarriesFrom(s, s.(settlements := s.settlements - {k}), Apply(s, op), id);
    } else {
      PayOutCarries(s, k, op.amount, 0, id);
    }
  }

  lemma CarriesFrom(s: State, mid: State, t: State, id: u64)
    requires mid.env == s.env && mid.channels == s.channels && Carries(mid, t, id)
    ensures Carries(s, t, id)
  {}

  lemma VoucherCallsCarry(s: State, op: Op, id: u64)
    requires id in s.channels && (op.OpUnilateral? || op.OpChallenge?)
    ensures Carries(s, Apply(s, op), id) && SameKey(s.channels[id], Apply(s, op).channels[id])
  {
    hide VerifyVoucher;
  }

  lemma PlainCarries(s: State, op: Op, id: u64)
    requires id in s.channels && id <= s.count && !IsPayment(op)
    requires !op.OpUnilateral? && !op.OpChallenge? && !op.OpFinalize? && !op.OpCooperative?
    ensures Carries(s, Apply(s, op), id)
    ensures !Enables(op, id) ==> SameKey(s.channels[id], Apply(s, op).channels[id])
  {
    hide Transfer, Permitted;
  }

  lemma StepCarries(s: State, op: Op, id: u64)
    requires id in s.channels && id <= s.count
    ensures Carries(s, Apply(s, op), id)
    ensures !Enables(op, id) ==> SameKey(s.channels[id], Apply(s, op).channels[id])
  {
    hide Step;
    if IsPayment(op) {
      PaymentCarries(s, op, id);
    } else if op.OpUnilateral? || op.OpChallenge? {
      VoucherCallsCarry(s, op, id);
    } else if op.OpFinalize? || op.OpCooperative? {
      if Step(s, op).Ok? {
        SettlingCarries(s, op, id);
      }
    } else {
      PlainCarries(s, op, id);
    }
  }

  /** On no run does a channel change agent, owner, token, limit or period, or
      reopen; and key and window change only through `enable_vouchers`. */
  lemma {:induction false} RunCarries(s: State, ops: seq<Op>, id: u64)
    requires Sound(s) && id in s.channels
    ensures Carries(s, Run(s, ops), id)
    ensures (forall op | op in ops :: !Enables(op, id)) ==> SameKey(s.channels[id], Run(s, ops).channels[id])
    decreases |ops|
  {
    hide Sound, Apply, Rates.Paced;
    if ops != [] {
      ChannelFacts(s, id);
      StepKeeps(s, ops[0]);
      StepCarries(s, ops[0], id);
      RunCarries(Apply(s, ops[0]), ops[1..], id);
    }
  }

  // ---- The voucher key ----

  /** The voucher amounts that pass every bound. */
  predicate Claimable(s: State, k: Key, amount: int)
    requires k in s.allocations
  {
    0 < amount && s.allocations[k].settled < amount <= s.allocations[k].amount
  }

  /** Vouchers are cumulative but a payout resets the reservation, so a voucher is
      accepted exactly when its amount lies between the two and the key in force
      verifies its signature over the exact claim. */
  lemma VerifiesIff(s: State, k: Key, sequence: u64, amount: i128, signature: Bytes)
    requires k in s.allocations && k.channel in s.channels
    ensures var c := s.channels[k.channel];
            VerifyVoucher(s, c, k, sequence, amount, signature).Ok? <==>
              && c.signer.Some? && Claimable(s, k, amount)
              && s.env.verify(c.signer.value, Encode(ClaimOf(s.env, k.channel, k.recipient, sequence, amount)), signature)
    ensures IsPreimage(s.env, k.channel, k.recipient, sequence, amount,
                       Encode(ClaimOf(s.env, k.channel, k.recipient, sequence, amount)))
  {
    EncodeIsThePreimage(s.env, k.channel, k.recipient, sequence, amount,
                        Encode(ClaimOf(s.env, k.channel, k.recipient, sequence, amount)));
    hide Encode, IsPreimage;
  }

  /** Rotating the voucher key repudiates the old one at once and for good: on
      every run until the next rotation only signatures of the new key over the
      exact claim are accepted. */
  lemma RotationRepudiates(s: State, owner: Address, id: u64, signer: Bytes, dispute: u32, ops: seq<Op>,
                           k: Key, sequence: u64, amount: i128, signature: Bytes)
    requires Sound(s) && EnableVouchers(s, owner, id, signer, dispute).Ok? && k.channel == id
    requires forall op | op in ops :: !Enables(op, id)
    ensures var end := Run(EnableVouchers(s, owner, id, signer, dispute).value.0, ops);
            && id in end.channels
            && (VerifyVoucher(end, end.channels[id], k, sequence, amount, signature).Ok? ==>
                  s.env.verify(signer, Encode(ClaimOf(s.env, id, k.recipient, sequence, amount)), signature))
  {
    hide Sound, Run, Encode, VerifyVoucher;
    EnableKeeps(s, owner, id, signer, dispute);
    var rotated := EnableVouchers(s, owner, id, signer, dispute).value.0;
    RunCarries(rotated, ops, id);
    var end := Run(rotated, ops);
    if VerifyVoucher(end, end.channels[id], k, sequence, amount, signature).Ok? {
      VoucherFacts(end, end.channels[id], k, sequence, amount, signature);
      VerifiesIff(end, k, sequence, amount, signature);
    }
  }

  // ---- Whether a recipient's voucher counts ----

  predicate Finalizes(op: Op, k: Key) {
    op.OpFinalize? && Key(op.id, op.recipient) == k
  }

  /** Exactly when submitting a voucher within the allocation secures its amount
      for a close in flight: something as good is already in, or the key in force
      verifies it and the window is open. */
  lemma SubmissionCountsIff(s: State, before: seq<Op>, k: Key, sequence: u64, amount: i128, signature: Bytes)
    requires Sound(s) && k in s.settlements && forall op | op in before :: !Finalizes(op, k)
    requires k in s.allocations && s.allocations[k].settled < amount <= s.allocations[k].amount
    ensures var mid := Run(s, before);
            var end := Apply(mid, OpChallenge(k.channel, k.recipient, sequence, amount, signature));
            && k.channel in mid.channels && k in mid.settlements && k in end.settlements
            && (amount <= end.settlements[k].best <==>
                  || amount <= mid.settlements[k].best
                  || (&& ChallengeWindow(mid, k) && mid.channels[k.channel].signer.Some?
                      && mid.env.verify(mid.channels[k.channel].signer.value,
                                        Encode(ClaimOf(mid.env, k.channel, k.recipient, sequence, amount)), signature)))
  {
    hide Sound, Run, Apply, Encode, VerifyVoucher, ChallengeWindow;
    SettlementFacts(s, k);
    CloseTakesBest(s, before, k);
    RunKeeps(s, before);
    var mid := Run(s, before);
    SettlementFacts(mid, k);
    VerifiesIff(mid, k, sequence, amount, signature);
    StepTakesBest(mid, OpChallenge(k.channel, k.recipient, sequence, amount, signature), k);
  }

  /** If the key under which a recipient's voucher verifies is kept until the
      voucher is submitted within the window, the close pays at least its amount,
      whatever claim it was opened with and whatever happens besides. */
  lemma KeptKeyProtects(s: State, before: seq<Op>, k: Key, sequence: u64, amount: i128, signature: Bytes, after: seq<Op>)
    requires Sound(s) && k in s.settlements && k.channel in s.channels
    requires VerifyVoucher(s, s.channels[k.channel], k, sequence, amount, signature).Ok?
    requires forall op | op in before :: !Finalizes(op, k) && !Enables(op, k.channel)
    requires forall op | op in after :: !Finalizes(op, k)
    requires var end := s.settlements[k].openedAt + s.channels[k.channel].dispute;
             end <= U32_MAX && Run(s, before).world.ledger < end
    ensures var end := Run(Apply(Run(s, before), OpChallenge(k.channel, k.recipient, sequence, amount, signature)), after);
            k in end.settlements && k in end.allocations && amount <= end.settlements[k].best && amount <= Payout(end, k)
  {
    hide Sound, Run, Apply, Encode, VerifyVoucher, Penalty;
    var challenge := OpChallenge(k.channel, k.recipient, sequence, amount, signature);
    VoucherFacts(s, s.channels[k.channel], k, sequence, amount, signature);
    VerifiesIff(s, k, sequence, amount, signature);
    SettlementFacts(s, k);
    SubmissionCountsIff(s, before, k, sequence, amount, signature);
    RunCarries(s, before, k.channel);
    CloseTakesBest(s, before, k);
    var mid := Run(s, before);
    RunKeeps(s, before);
    SettlementFacts(mid, k);
    StepTakesBest(mid, challenge, k);
    StepKeeps(mid, challenge);
    var next := Apply(mid, challenge);
    CloseTakesBest(next, after, k);
    RunKeeps(next, after);
    var end := Run(next, after);
    SettlementFacts(end, k);
    PenaltyBounds(end.world.ledger, end.settlements[k], end.allocations[k]);
  }

  /** A key under which nothing verifies. */
  ghost predicate Mute(env: Env, signer: Bytes) {
    forall message, signature :: !env.verify(signer, message, signature)
  }

  /** If the owner replaces the key of a channel with a close in flight by one under
      which nothing verifies, no voucher counts any more: on every run until the
      next change the close keeps its claim, and a stale claim is what it pays. */
  lemma LostKeyForfeits(s: State, owner: Address, signer: Bytes, dispute: u32, ops: seq<Op>, k: Key)
    requires Sound(s) && k in s.settlements && EnableVouchers(s, owner, k.channel, signer, dispute).Ok? && Mute(s.env, signer)
    requires forall op | op in ops :: !Finalizes(op, k) && !Enables(op, k.channel)
    ensures var end := Run(EnableVouchers(s, owner, k.channel, signer, dispute).value.0, ops);
            && k in s.allocations && k in end.settlements && k in end.allocations
            && end.settlements[k] == s.settlements[k] && Payout(end, k) == Payout(s, k)
            && (s.settlements[k].best == s.settlements[k].first ==> Payout(end, k) == s.settlements[k].first)
  {
    hide Sound, Run, Encode, Penalty, VerifyVoucher;
    SettlementFacts(s, k);
    EnableKeeps(s, owner, k.channel, signer, dispute);
    var muted := EnableVouchers(s, owner, k.channel, signer, dispute).value.0;
    MuteCloseStands(muted, ops, k);
    PenaltyBounds(s.world.ledger, s.settlements[k], s.allocations[k]);
  }

  ghost predicate MuteClose(s: State, k: Key) {
    && k in s.settlements && k.channel in s.channels && k in s.allocations
    && s.channels[k.channel].signer.Some? && Mute(s.env, s.channels[k.channel].signer.value)
  }

  lemma {:induction false} MuteCloseStands(s: State, ops: seq<Op>, k: Key)
    requires Sound(s) && MuteClose(s, k)
    requires forall op | op in ops :: !Finalizes(op, k) && !Enables(op, k.channel)
    ensures var end := Run(s, ops);
            && k in end.settlements && end.settlements[k] == s.settlements[k]
            && k in end.allocations && end.allocations[k] == s.allocations[k]
    decreases |ops|
  {
    hide Sound, Apply, Encode, Mute, Rates.Paced;
    if ops != [] {
      assert ops[0] in ops;
      ChannelFacts(s, k.channel);
      StepKeeps(s, ops[0]);
      StepCarries(s, ops[0], k.channel);
      MuteStep(s, ops[0], k);
      MuteCloseStands(Apply(s, ops[0]), ops[1..], k);
    }
  }

  /** Under a mute key a challenge is refused, so the close stands to the letter. */
  lemma MuteStep(s: State, op: Op, k: Key)
    requires Sound(s) && MuteClose(s, k) && !Finalizes(op, k)
    ensures var t := Apply(s, op);
            && k in t.settlements && t.settlements[k] == s.settlements[k]
            && k in t.allocations && t.allocations[k] == s.allocations[k]
  {
    hide Sound, Encode, VerifyVoucher;
    SettlementFacts(s, k);
    if op.OpChallenge? && Key(op.id, op.recipient) == k {
      VerifiesIff(s, k, op.sequence, op.amount, op.signature);
      assert Step(s, op).Err?;
    } else {
      UnchallengedStands(s, op, k);
    }
  }

  lemma UnchallengedStands(s: State, op: Op, k: Key)
    requires k in s.settlements && k in s.allocations && 0 <= s.settlements[k].best
    requires !Finalizes(op, k) && !(op.OpChallenge? && Key(op.id, op.recipient) == k)
    ensures var t := Apply(s, op);
            && k in t.settlements && t.settlements[k] == s.settlements[k]
            && k in t.allocations && t.allocations[k] == s.allocations[k]
  {
    if Targets(op, k) {
      hide Encode, Transfer, PayOut;
    } else {
      StepSpares(s, op, k);
    }
  }

  // ---- A window that never ends ----

  /** While the window of a close overflows, no run without another
      `enable_vouchers` on the channel challenges or finalizes it. */
  lemma {:induction false} EndlessWindowStays(s: State, ops: seq<Op>, k: Key)
    requires Sound(s) && k in s.settlements && k.channel in s.channels
    requires s.settlements[k].openedAt + s.channels[k.channel].dispute > U32_MAX
    requires forall op | op in ops :: !Enables(op, k.channel)
    ensures var end := Run(s, ops);
            && k in end.settlements && end.settlements[k] == s.settlements[k]
            && k.channel in end.channels && end.channels[k.channel].dispute == s.channels[k.channel].dispute
            && Finalize(end, k.channel, k.recipient) == Err(Overflow)
            && forall q, n, g :: Challenge(end, k.channel, k.recipient, q, n, g).Err?
    decreases |ops|
  {
    if ops == [] {
      hide Sound, Encode;
    } else {
      hide Sound, Apply, Encode, Finalize, Challenge, Rates.Paced;
      assert ops[0] in ops;
      ChannelFacts(s, k.channel);
      StepKeeps(s, ops[0]);
      StepCarries(s, ops[0], k.channel);
      EndlessStep(s, ops[0], k);
      EndlessWindowStays(Apply(s, ops[0]), ops[1..], k);
    }
  }

  lemma EndlessStep(s: State, op: Op, k: Key)
    requires Sound(s) && k in s.settlements && k.channel in s.channels
    requires s.settlements[k].openedAt + s.channels[k.channel].dispute > U32_MAX
    ensures k in Apply(s, op).settlements && Apply(s, op).settlements[k] == s.settlements[k]
  {
    hide Sound, Encode;
    SettlementFacts(s, k);
    if (op.OpChallenge? || op.OpFinalize?) && Key(op.id, op.recipient) == k {
      assert Step(s, op).Err?;
    } else {
      UnchallengedStands(s, op, k);
    }
  }

  /** Nothing stops an owner from setting such a window while a close is in flight:
      from then on, on every run until the next change, the close is stuck. */
  lemma WindowCanBeMadeEndless(s: State, owner: Address, signer: Bytes, k: Key, ops: seq<Op>)
    requires Sound(s) && k in s.settlements && 0 < s.settlements[k].openedAt
    requires k.channel in s.channels && s.channels[k.channel].owner == owner && s.channels[k.channel].active
    requires forall op | op in ops :: !Enables(op, k.channel)
    ensures EnableVouchers(s, owner, k.channel, signer, U32_MAX).Ok?
    ensures var end := Run(EnableVouchers(s, owner, k.channel, signer, U32_MAX).value.0, ops);
            && k in end.settlements && end.settlements[k] == s.settlements[k]
            && Finalize(end, k.channel, k.recipient) == Err(Overflow)
            && forall q, n, g :: Challenge(end, k.channel, k.recipient, q, n, g).Err?
  {
    hide Sound, Run, Finalize, Challenge, Rates.Paced;
    ChannelFacts(s, k.channel);
    EnableKeeps(s, owner, k.channel, signer, U32_MAX);
    EndlessWindowStays(EnableVouchers(s, owner, k.channel, signer, U32_MAX).value.0, ops, k);
  }
}
