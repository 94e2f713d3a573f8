/** What it takes to flip the pause, read off the history of proposals. */
module CircuitBreakerProofs {
  import opened Base
  import opened CircuitBreakerModel

  // ---- Counting ----

  predicate Distinct(v: seq<Address>) {
    forall i, j | 0 <= i < j < |v| :: v[i] != v[j]
  }

  /** The distinct trusted nodes whose proposal stands. */
  function Standing(trusted: seq<Address>, proposals: map<Address, u32>, cutoff: int): set<Address> {
    set a | a in trusted && Counts(proposals, cutoff, a)
  }

  /** No node whose proposal stands is listed twice. */
  ghost predicate CountedOnce(trusted: seq<Address>, proposals: map<Address, u32>, cutoff: int) {
    forall i, j | 0 <= i < j < |trusted| && trusted[i] == trusted[j] :: !Counts(proposals, cutoff, trusted[i])
  }

  /** The loop counts at least the distinct standing nodes, and exactly those
      when no standing node is listed twice. */
  lemma {:induction false} CountIsCardinalityIff(trusted: seq<Address>, proposals: map<Address, u32>, cutoff: int)
    ensures CountValid(trusted, proposals, cutoff) >= |Standing(trusted, proposals, cutoff)|
    ensures CountValid(trusted, proposals, cutoff) == |Standing(trusted, proposals, cutoff)|
            <==> CountedOnce(trusted, proposals, cutoff)
  {
    if trusted != [] {
      var before, last := trusted[..|trusted| - 1], trusted[|trusted| - 1];
      CountIsCardinalityIff(before, proposals, cutoff);
      var was := Standing(before, proposals, cutoff);
      if Counts(proposals, cutoff, last) {
        assert Standing(trusted, proposals, cutoff) == was + {last};
        if last in before {
          assert was + {last} == was;
          var i :| 0 <= i < |before| && before[i] == last;
          assert trusted[i] == last;
        }
      } else {
        assert Standing(trusted, proposals, cutoff) == was;
      }
      assert CountedOnce(trusted, proposals, cutoff)
             <==> CountedOnce(before, proposals, cutoff) && (Counts(proposals, cutoff, last) ==> last !in before);
    }
  }

  // ---- The history behind the stored maps ----

  /** The proposals of a kind made since the last rotation and the last flip. */
  function Pending(j: seq<Event>, kind: Kind): map<Address, u32> {
    if j == [] then map[]
    else
      var before := Pending(j[..|j| - 1], kind);
      match j[|j| - 1]
      case Rotated => map[]
      case Proposed(k, node, ledger) => if k == kind then before[node := ledger] else before
      case Flipped(k, _, _, _) => if k == kind then map[] else before
  }

  /** The last word on the flag. */
  function IsPaused(j: seq<Event>): bool {
    if j == [] then false
    else if j[|j| - 1].Flipped? then j[|j| - 1].kind == Pause
    else IsPaused(j[..|j| - 1])
  }

  /** Proposal `i` is by `node`, and neither a rotation nor a flip of its kind follows it before `k`. */
  ghost predicate StandsSince(j: seq<Event>, i: int, k: int, kind: Kind, node: Address, ledger: u32)
    requires 0 <= i < k <= |j|
  {
    && j[i] == Proposed(kind, node, ledger)
    && forall n | i < n < k :: !j[n].Rotated? && !(j[n].Flipped? && j[n].kind == kind)
  }

  lemma {:induction false} PendingMeans(j: seq<Event>, kind: Kind, node: Address) returns (i: nat)
    requires node in Pending(j, kind)
    ensures i < |j| && StandsSince(j, i, |j|, kind, node, Pending(j, kind)[node])
  {
    var e, before := j[|j| - 1], j[..|j| - 1];
    if e.Proposed? && e.kind == kind && e.node == node {
      i := |j| - 1;
    } else {
      i := PendingMeans(before, kind, node);
      assert before[i] == j[i];
    }
  }

  lemma PendingAppend(j: seq<Event>, e: Event)
    ensures forall kind {:trigger Pending(j + [e], kind)} ::
              Pending(j + [e], kind) ==
              match e
              case Rotated => map[]
              case Proposed(k, node, ledger) => if k == kind then Pending(j, kind)[node := ledger] else Pending(j, kind)
              case Flipped(k, _, _, _) => if k == kind then map[] else Pending(j, kind)
    ensures IsPaused(j + [e]) == if e.Flipped? then e.kind == Pause else IsPaused(j)
    ensures forall k {:trigger (j + [e])[..k]} | 0 <= k <= |j| :: (j + [e])[..k] == j[..k]
  {
    assert (j + [e])[..|j|] == j;
  }

  // ---- The invariant ----

  ghost predicate Inv(s: State) {
    && s.pauses == Pending(s.journal, Pause) && s.unpauses == Pending(s.journal, Unpause)
    && s.paused == IsPaused(s.journal)
    && (s.admin.None? ==> s.trusted == [] && s.journal == [])
    && (s.admin.Some? ==> 0 < s.window)
    && (forall k | 0 <= k < |s.journal| :: s.journal[k].Proposed? ==> s.journal[k].ledger <= s.now)
    && (forall k | 0 <= k < |s.journal| :: s.journal[k].Flipped? ==> Endorsed(s.journal[..k], s.journal[k]))
  }

  ghost predicate Endorsed(past: seq<Event>, e: Event)
    requires e.Flipped?
  {
    CountValid(e.trusted, Pending(past, e.kind), Cutoff(e.ledger, e.window)) >= QUORUM
  }

  lemma NothingYet(proposals: map<Address, u32>, cutoff: int)
    ensures !IsPaused([]) && CountValid([], proposals, cutoff) == 0
  {}

  /** What one more event asks of the new state. */
  lemma EventKeeps(s: State, s': State, e: Event)
    requires Inv(s) && s'.journal == s.journal + [e] && s'.now == s.now && s'.admin.Some? && 0 < s'.window
    requires e.Proposed? ==> e.ledger <= s.now
    requires e.Flipped? ==> Endorsed(s.journal, e)
    requires s'.paused == if e.Flipped? then e.kind == Pause else s.paused
    requires
      match e
      case Rotated => s'.pauses == map[] && s'.unpauses == map[]
      case Proposed(k, node, ledger) =>
        s'.pauses == (if k == Pause then s.pauses[node := ledger] else s.pauses)
        && s'.unpauses == (if k == Unpause then s.unpauses[node := ledger] else s.unpauses)
      case Flipped(k, _, _, _) =>
        s'.pauses == (if k == Pause then map[] else s.pauses)
        && s'.unpauses == (if k == Unpause then map[] else s.unpauses)
    ensures Inv(s')
  {
    hide Pending, IsPaused, Endorsed;
    PendingAppend(s.journal, e);
    assert s.journal[..|s.journal|] == s.journal;
    assert forall k {:trigger s'.journal[..k]} | 0 <= k <= |s.journal| :: s'.journal[..k] == s.journal[..k];
  }

  lemma StepKeeps(s: State, op: Op)
    requires Inv(s)
    ensures Inv(Apply(s, op))
  {
    hide Pending, IsPaused, CountValid;
    NothingYet(s.pauses, Cutoff(s.now, s.window));
    NothingYet(s.unpauses, Cutoff(s.now, s.window));
    var s' := Apply(s, op);
    if Step(s, op).Ok? && !op.OpPass? && !op.OpSetProposeWindow? {
      EventKeeps(s, s', s'.journal[|s.journal|]);
    }
  }

  lemma {:induction false} RunKeeps(s: State, ops: seq<Op>)
    requires Inv(s)
    ensures Inv(Run(s, ops))
    decreases |ops|
  {
    hide Inv, Apply;
    if ops != [] {
      StepKeeps(s, ops[0]);
      RunKeeps(Apply(s, ops[0]), ops[1..]);
    }
  }

  lemma ReachableIsFine(now: u32, ops: seq<Op>)
    ensures Inv(Run(Fresh(now), ops))
  {
    assert Inv(Fresh(now));
    RunKeeps(Fresh(now), ops);
  }

  // ---- Main results ----

  /** A node that had a proposal in force, recent enough, when flip `k` happened. */
  ghost predicate Backs(j: seq<Event>, k: int, node: Address)
    requires 0 <= k < |j| && j[k].Flipped?
  {
    && node in j[k].trusted
    && exists i, ledger: u32 :: 0 <= i < k && StandsSince(j, i, k, j[k].kind, node, ledger) && ledger >= Cutoff(j[k].ledger, j[k].window)
  }

  /** On every run each pause, and each unpause, of a duplicate-free trusted list
      has five distinct trusted backers, each of whom proposed within the window
      and after the last rotation and the last flip of that kind. */
  lemma FlipsAreBacked(now: u32, ops: seq<Op>, k: nat) returns (backers: set<Address>)
    requires var j := Run(Fresh(now), ops).journal;
             k < |j| && j[k].Flipped? && Distinct(j[k].trusted)
    ensures |backers| >= QUORUM
    ensures forall a | a in backers :: Backs(Run(Fresh(now), ops).journal, k, a)
  {
    hide Run, CountValid, Pending, StandsSince;
    ReachableIsFine(now, ops);
    var j := Run(Fresh(now), ops).journal;
    var e, past := j[k], j[..k];
    assert Endorsed(past, e);
    var proposals, cutoff := Pending(past, e.kind), Cutoff(e.ledger, e.window);
    backers := Standing(e.trusted, proposals, cutoff);
    CountIsCardinalityIff(e.trusted, proposals, cutoff);
    forall a | a in backers
      ensures Backs(j, k, a)
    {
      var i := PendingMeans(past, e.kind, a);
      PrefixStands(j, i, k, e.kind, a, proposals[a]);
    }
  }

  lemma PrefixStands(j: seq<Event>, i: int, k: int, kind: Kind, node: Address, ledger: u32)
    requires 0 <= i < k <= |j| && StandsSince(j[..k], i, k, kind, node, ledger)
    ensures StandsSince(j, i, k, kind, node, ledger)
  {
    assert forall n | 0 <= n < k :: j[..k][n] == j[n];
  }

  /** Exactly when a flip goes through, on a list without duplicates. */
  lemma FlipSucceedsIff(s: State, kind: Kind)
    requires Distinct(s.trusted)
    ensures Step(s, OpExecute(kind)).Ok? <==>
              |Standing(s.trusted, if kind == Pause then s.pauses else s.unpauses, Cutoff(s.now, s.window))| >= QUORUM
  {
    hide CountValid;
    CountIsCardinalityIff(s.trusted, if kind == Pause then s.pauses else s.unpauses, Cutoff(s.now, s.window));
  }

  /** A node listed five times pauses the system alone: the list is stored as it
      is given. */
  lemma OneNodeCanPauseAlone()
    ensures var ops := [OpInitialize(1, [7, 7, 7, 7, 7], 10), OpPropose(Pause, 7), OpExecute(Pause)];
            Run(Fresh(100), ops).paused
  {
    var a, b, c := OpInitialize(1, [7, 7, 7, 7, 7], 10), OpPropose(Pause, 7), OpExecute(Pause);
    var s2 := Apply(Apply(Fresh(100), a), b);
    var t: seq<Address> := [7, 7, 7, 7, 7];
    assert s2.pauses == map[7 := 100] && s2.trusted == t && Cutoff(s2.now, s2.window) == 90;
    CountRepeats(5, 7, s2.pauses, 90);
    assert seq(5, _ => 7) == t;
    assert [a, b, c][1..] == [b, c] && [b, c][1..] == [c] && [c][1..] == [];
    assert Apply(s2, c).paused;
    assert Run(Apply(s2, c), []) == Apply(s2, c);
    assert Run(s2, [c]) == Apply(s2, c);
    assert Run(Apply(Fresh(100), a), [b, c]) == Apply(s2, c);
  }

  lemma {:induction false} CountRepeats(n: nat, node: Address, proposals: map<Address, u32>, cutoff: int)
    requires Counts(proposals, cutoff, node)
    ensures CountValid(seq(n, _ => node), proposals, cutoff) == n
  {
    if n > 0 {
      assert seq(n, _ => node)[..n - 1] == seq(n - 1, _ => node);
      CountRepeats(n - 1, node, proposals, cutoff);
    }
  }

  /** The cooldown never silences a node: at every ledger its last pause proposal
      still counts or can be renewed, and both only at the ledger it runs out. */
  lemma CountsOrRenews(now: u32, ops: seq<Op>, node: Address)
    requires var s := Run(Fresh(now), ops); node in s.trusted && node in s.pauses
    ensures var s := Run(Fresh(now), ops);
            var counts, renews := Counts(s.pauses, Cutoff(s.now, s.window), node), ProposePause(s, node).Ok?;
            && (counts || renews)
            && (counts && renews <==> s.now == Min(s.pauses[node] + s.window, U32_MAX))
  {
    hide Run, Pending;
    ReachableIsFine(now, ops);
    var s := Run(Fresh(now), ops);
    var i := PendingMeans(s.journal, Pause, node);
    assert s.journal[i].ledger <= s.now;
  }

  /** Clears, or may clear, the pause proposals. */
  predicate ClearsPauses(op: Op) {
    op.OpSetTrustedNodes? || op.OpInitialize? || op == OpExecute(Pause)
  }

  /** A pause proposal outlives every unpause: on any run without a rotation or a
      pause it stands, at its ledger or a renewed one, and the nodes are the same. */
  lemma {:induction false} PauseProposalsStand(s: State, ops: seq<Op>)
    requires Inv(s) && forall op | op in ops :: !ClearsPauses(op)
    ensures var t := Run(s, ops);
            && t.trusted == s.trusted
            && forall a | a in s.pauses :: a in t.pauses && s.pauses[a] <= t.pauses[a] <= t.now
    decreases |ops|
  {
    hide Inv, Pending, CountValid;
    PausesArePast(s);
    if ops != [] {
      assert ops[0] in ops;
      StepKeeps(s, ops[0]);
      PauseProposalsStand(Apply(s, ops[0]), ops[1..]);
    }
  }

  lemma PausesArePast(s: State)
    requires Inv(s)
    ensures forall a | a in s.pauses :: s.pauses[a] <= s.now
  {
    hide Pending;
    forall a | a in s.pauses
      ensures s.pauses[a] <= s.now
    {
      var i := PendingMeans(s.journal, Pause, a);
      assert s.journal[i].ledger <= s.now;
    }
  }

  /** So five nodes whose proposals predate an unpause can pause again right after
      it, and at any later ledger at which those proposals still count, with no
      new proposal. */
  lemma UnpauseCanBeUndone(s: State, ops: seq<Op>)
    requires Inv(s) && Distinct(s.trusted) && forall op | op in ops :: !ClearsPauses(op)
    requires var t := Run(s, ops);
             |Standing(t.trusted, s.pauses, Cutoff(t.now, t.window))| >= QUORUM
    ensures Step(Run(s, ops), OpExecute(Pause)).Ok?
  {
    hide Inv, Run, CountValid, Step, Cutoff;
    PauseProposalsStand(s, ops);
    var t := Run(s, ops);
    var cutoff := Cutoff(t.now, t.window);
    assert Standing(t.trusted, s.pauses, cutoff) <= Standing(t.trusted, t.pauses, cutoff);
    SubsetCardinality(Standing(t.trusted, s.pauses, cutoff), Standing(t.trusted, t.pauses, cutoff));
    FlipSucceedsIff(t, Pause);
  }

  lemma SubsetCardinality(a: set<Address>, b: set<Address>)
    requires a <= b
    ensures |a| <= |b|
  {
    assert b == a + (b - a);
  }
}
