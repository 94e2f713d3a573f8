/** What each transaction of the circuit breaker does, in the caller's terms. */
module CircuitBreakerEffects {
  import opened Base
  import opened CircuitBreakerModel
  import opened CircuitBreakerProofs

  /** Setting up stores admin, list and window as given, once, unpaused. */
  lemma InitializeDoes(s: State, admin: Address, trusted: seq<Address>, window: u32)
    ensures var r := Initialize(s, admin, trusted, window);
            && (r.Ok? <==> s.admin.None? && 0 < window)
            && (r.Ok? ==>
                  var s' := r.value.0;
                  && s'.admin == Some(admin) && s'.trusted == trusted && s'.window == window && !s'.paused
                  && s'.pauses == map[] && s'.unpauses == map[] && s'.now == s.now)
  {}

  /** Only the admin rotates the list, which is stored as given and forgets every
      proposal of either kind; the flag stays. */
  lemma RotationDoes(s: State, caller: Address, trusted: seq<Address>)
    ensures var r := SetTrustedNodes(s, caller, trusted);
            && (r.Ok? <==> s.admin == Some(caller))
            && (r.Ok? ==>
                  var s' := r.value.0;
                  && s'.trusted == trusted && s'.pauses == map[] && s'.unpauses == map[]
                  && s'.admin == s.admin && s'.window == s.window && s'.paused == s.paused && s'.now == s.now)
  {}

  lemma WindowDoes(s: State, caller: Address, window: u32)
    ensures var r := SetProposeWindow(s, caller, window);
            && (r.Ok? <==> s.admin == Some(caller) && 0 < window)
            && (r.Ok? ==> r.value.0.window == window && r.value.0 == s.(window := r.value.0.window))
  {}

  /** A trusted node's proposal counts from now on; pauses have a cooldown of one
      window, unpauses none. Nobody else's proposal and not the flag are touched. */
  lemma ProposalsDo(s: State, node: Address)
    ensures var r := ProposePause(s, node);
            && (r.Ok? <==> node in s.trusted
                           && (node in s.pauses ==> s.now >= s.pauses[node] + s.window || s.now == 0xFFFF_FFFF))
            && (r.Ok? ==>
                  var s' := r.value.0;
                  && s' == s.(pauses := s'.pauses, journal := s'.journal) && s'.pauses.Keys == s.pauses.Keys + {node}
                  && s'.pauses[node] == s.now && forall a | a in s.pauses && a != node :: s'.pauses[a] == s.pauses[a])
    ensures var r := ProposeUnpause(s, node);
            && (r.Ok? <==> node in s.trusted)
            && (r.Ok? ==>
                  var s' := r.value.0;
                  && s' == s.(unpauses := s'.unpauses, journal := s'.journal) && s'.unpauses.Keys == s.unpauses.Keys + {node}
                  && s'.unpauses[node] == s.now && forall a | a in s.unpauses && a != node :: s'.unpauses[a] == s.unpauses[a])
  {}

  /** On a list without duplicates: five distinct trusted nodes with a proposal at most
      one window old pause, or unpause, the system; the flip uses up the proposals of
      its kind and nothing else. */
  lemma FlipsDo(s: State)
    requires Distinct(s.trusted)
    ensures var r := ExecutePause(s);
            && (r.Ok? <==> |set a | a in s.trusted && a in s.pauses && s.now - s.window <= s.pauses[a]| >= 5)
            && (r.Ok? ==> r.value.0.paused && r.value.0 == s.(paused := true, pauses := map[], journal := r.value.0.journal))
    ensures var r := ExecuteUnpause(s);
            && (r.Ok? <==> |set a | a in s.trusted && a in s.unpauses && s.now - s.window <= s.unpauses[a]| >= 5)
            && (r.Ok? ==> !r.value.0.paused && r.value.0 == s.(paused := false, unpauses := map[], journal := r.value.0.journal))
  {
    hide CountValid;
    var cutoff := Cutoff(s.now, s.window);
    CountIsCardinalityIff(s.trusted, s.pauses, cutoff);
    CountIsCardinalityIff(s.trusted, s.unpauses, cutoff);
    assert Standing(s.trusted, s.pauses, cutoff) == set a | a in s.trusted && a in s.pauses && s.now - s.window <= s.pauses[a];
    assert Standing(s.trusted, s.unpauses, cutoff) == set a | a in s.trusted && a in s.unpauses && s.now - s.window <= s.unpauses[a];
  }
}
