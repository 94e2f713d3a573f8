/** The circuit breaker as it is written: stored maps and a flag, one method per
    entry point, each proved against its transition function. */
module CircuitBreakerContract {
  import opened Base
  import opened Tokens
  import C = CircuitBreakerModel
  import opened CircuitBreakerModel
  import opened CircuitBreakerProofs

  class CircuitBreaker {
    const host: Host

    var admin: Option<Address>
    var trusted: seq<Address>
    var window: u32
    var pauses: map<Address, u32>
    var unpauses: map<Address, u32>
    ghost var journal: seq<Event>

    /** The flag other contracts consult is the host's `paused`. */
    ghost function View(): State
      reads this, host
    {
      State(host.ledger, admin, trusted, window, pauses, unpauses, host.paused, journal)
    }

    ghost predicate Valid()
      reads this, host
    {
      Inv(View())
    }

    constructor (host: Host)
      requires !host.paused
      ensures this.host == host && Valid() && View() == Fresh(host.ledger)
    {
      this.host := host;
      admin, trusted, window, pauses, unpauses, journal := None, [], 0, map[], map[], [];
    }

    method Initialize(caller: Address, nodes: seq<Address>, ledgers: u32) returns (r: Result<()>)
      requires Valid()
      modifies this, host`paused
      ensures View() == After(old(View()), C.Initialize(old(View()), caller, nodes, ledgers))
      ensures r == Seen(C.Initialize(old(View()), caller, nodes, ledgers))
      ensures Valid()
    {
      hide Inv;
      StepKeeps(View(), OpInitialize(caller, nodes, ledgers));
      if admin.Some? {
        return Err(AlreadyInitialized);
      }
      if ledgers == 0 {
        return Err(WindowTooShort);
      }
      admin, trusted, window, pauses, unpauses := Some(caller), nodes, ledgers, map[], map[];
      host.paused := false;
      journal := journal + [Rotated];
      return Ok(());
    }

    method RequireAdmin(caller: Address) returns (r: Result<()>)
      ensures r == C.RequireAdmin(View(), caller)
    {
      if admin.None? {
        return Err(NotInitialized);
      }
      return Need(admin.value == caller, NotAdmin);
    }

    method SetTrustedNodes(caller: Address, nodes: seq<Address>) returns (r: Result<()>)
      requires Valid()
      modifies this
      ensures View() == After(old(View()), C.SetTrustedNodes(old(View()), caller, nodes))
      ensures r == Seen(C.SetTrustedNodes(old(View()), caller, nodes))
      ensures Valid()
    {
      hide Inv;
      StepKeeps(View(), OpSetTrustedNodes(caller, nodes));
      var permitted := RequireAdmin(caller);
      if permitted.Err? {
        return Err(permitted.error);
      }
      trusted, pauses, unpauses := nodes, map[], map[];
      journal := journal + [Rotated];
      return Ok(());
    }

    method SetProposeWindow(caller: Address, ledgers: u32) returns (r: Result<()>)
      requires Valid()
      modifies this
      ensures View() == After(old(View()), C.SetProposeWindow(old(View()), caller, ledgers))
      ensures r == Seen(C.SetProposeWindow(old(View()), caller, ledgers))
      ensures Valid()
    {
      hide Inv;
      StepKeeps(View(), OpSetProposeWindow(caller, ledgers));
      var permitted := RequireAdmin(caller);
      if permitted.Err? {
        return Err(permitted.error);
      }
      if ledgers == 0 {
        return Err(WindowTooShort);
      }
      window := ledgers;
      return Ok(());
    }

    method ProposePause(node: Address) returns (r: Result<()>)
      requires Valid()
      modifies this
      ensures View() == After(old(View()), C.ProposePause(old(View()), node))
      ensures r == Seen(C.ProposePause(old(View()), node))
      ensures Valid()
    {
      hide Inv;
      StepKeeps(View(), OpPropose(Pause, node));
      if node !in trusted {
        return Err(NotAuthorized);
      }
      if node in pauses {
        var cool := if pauses[node] + window > U32_MAX then U32_MAX else pauses[node] + window;
        if host.ledger < cool {
          return Err(Cooldown);
        }
      }
      pauses := pauses[node := host.ledger];
      journal := journal + [Proposed(Pause, node, host.ledger)];
      return Ok(());
    }

    method ProposeUnpause(node: Address) returns (r: Result<()>)
      requires Valid()
      modifies this
      ensures View() == After(old(View()), C.ProposeUnpause(old(View()), node))
      ensures r == Seen(C.ProposeUnpause(old(View()), node))
      ensures Valid()
    {
      hide Inv;
      StepKeeps(View(), OpPropose(Kind.Unpause, node));
      if node !in trusted {
        return Err(NotAuthorized);
      }
      unpauses := unpauses[node := host.ledger];
      journal := journal + [Proposed(Kind.Unpause, node, host.ledger)];
      return Ok(());
    }

    /** The counting loop: at least the distinct standing nodes, and exactly
        those when none of them is listed twice. */
    method CountValid(proposals: map<Address, u32>) returns (count: nat)
      ensures count == C.CountValid(trusted, proposals, Cutoff(host.ledger, window))
      ensures count == |Standing(trusted, proposals, Cutoff(host.ledger, window))|
              <==> CountedOnce(trusted, proposals, Cutoff(host.ledger, window))
    {
      var cutoff := if host.ledger < window then 0 else host.ledger - window;
      count := 0;
      for i := 0 to |trusted|
        invariant count == C.CountValid(trusted[..i], proposals, cutoff)
      {
        assert trusted[..i + 1][..i] == trusted[..i];
        if trusted[i] in proposals && proposals[trusted[i]] >= cutoff {
          count := count + 1;
        }
      }
      assert trusted[..|trusted|] == trusted;
      CountIsCardinalityIff(trusted, proposals, cutoff);
    }

    method ExecutePause() returns (r: Result<()>)
      requires Valid()
      modifies this, host`paused
      ensures View() == After(old(View()), C.ExecutePause(old(View())))
      ensures r == Seen(C.ExecutePause(old(View())))
      ensures Valid()
    {
      hide Inv;
      StepKeeps(View(), OpExecute(Pause));
      var count := CountValid(pauses);
      if count < QUORUM {
        return Err(QuorumNotReached);
      }
      host.paused := true;
      pauses := map[];
      journal := journal + [Flipped(Pause, trusted, host.ledger, window)];
      return Ok(());
    }

    method Unpause() returns (r: Result<()>)
      requires Valid()
      modifies this, host`paused
      ensures View() == After(old(View()), ExecuteUnpause(old(View())))
      ensures r == Seen(ExecuteUnpause(old(View())))
      ensures Valid()
    {
      hide Inv;
      StepKeeps(View(), OpExecute(Kind.Unpause));
      var count := CountValid(unpauses);
      if count < QUORUM {
        return Err(QuorumNotReached);
      }
      host.paused := false;
      unpauses := map[];
      journal := journal + [Flipped(Kind.Unpause, trusted, host.ledger, window)];
      return Ok(());
    }
  }
}
