/** The emergency pause as a state machine: trusted nodes propose, anyone flips
    the flag once enough proposals stand within the window. */
module CircuitBreakerModel {
  import opened Base

  const QUORUM: int := 5

  datatype Kind = Pause | Unpause

  /** History kept for the statements only. `Flipped` records the trusted list
      and the window in force at the time. */
  datatype Event =
    | Rotated
    | Proposed(kind: Kind, node: Address, ledger: u32)
    | Flipped(kind: Kind, trusted: seq<Address>, ledger: u32, window: u32)

  datatype State = State(
    now: u32,
    admin: Option<Address>,
    trusted: seq<Address>,
    window: u32,
    pauses: map<Address, u32>,
    unpauses: map<Address, u32>,
    paused: bool,
    journal: seq<Event>)

  function Initialize(s: State, admin: Address, trusted: seq<Address>, window: u32): Result<(State, ())> {
    var _ :- Need(s.admin.None?, AlreadyInitialized);
    var _ :- Need(window != 0, WindowTooShort);
    Ok((s.(admin := Some(admin), trusted := trusted, window := window, paused := false, pauses := map[], unpauses := map[],
           journal := s.journal + [Rotated]), ()))
  }

  function RequireAdmin(s: State, caller: Address): Result<()> {
    var _ :- Need(s.admin.Some?, NotInitialized);
    Need(s.admin.value == caller, NotAdmin)
  }

  function SetTrustedNodes(s: State, caller: Address, trusted: seq<Address>): Result<(State, ())> {
    var _ :- RequireAdmin(s, caller);
    Ok((s.(trusted := trusted, pauses := map[], unpauses := map[], journal := s.journal + [Rotated]), ()))
  }

  function SetProposeWindow(s: State, caller: Address, window: u32): Result<(State, ())> {
    var _ :- RequireAdmin(s, caller);
    var _ :- Need(window != 0, WindowTooShort);
    Ok((s.(window := window), ()))
  }

  function ProposePause(s: State, node: Address): Result<(State, ())> {
    var _ :- Need(node in s.trusted, NotAuthorized);
    var _ :- Need(node in s.pauses ==> s.now >= Min(s.pauses[node] + s.window, U32_MAX), Cooldown);
    Ok((s.(pauses := s.pauses[node := s.now], journal := s.journal + [Proposed(Pause, node, s.now)]), ()))
  }

  function ProposeUnpause(s: State, node: Address): Result<(State, ())> {
    var _ :- Need(node in s.trusted, NotAuthorized);
    Ok((s.(unpauses := s.unpauses[node := s.now], journal := s.journal + [Proposed(Unpause, node, s.now)]), ()))
  }

  /** The oldest proposal ledger that still counts. */
  function Cutoff(now: u32, window: u32): int { Max(now - window, 0) }

  predicate Counts(proposals: map<Address, u32>, cutoff: int, node: Address) {
    node in proposals && proposals[node] >= cutoff
  }

  /** One for each entry of the list whose proposal stands. */
  function CountValid(trusted: seq<Address>, proposals: map<Address, u32>, cutoff: int): nat {
    if trusted == [] then 0
    else
      CountValid(trusted[..|trusted| - 1], proposals, cutoff)
      + if Counts(proposals, cutoff, trusted[|trusted| - 1]) then 1 else 0
  }

  function ExecutePause(s: State): Result<(State, ())> {
    var _ :- Need(CountValid(s.trusted, s.pauses, Cutoff(s.now, s.window)) >= QUORUM, QuorumNotReached);
    Ok((s.(paused := true, pauses := map[], journal := s.journal + [Flipped(Pause, s.trusted, s.now, s.window)]), ()))
  }

  function ExecuteUnpause(s: State): Result<(State, ())> {
    var _ :- Need(CountValid(s.trusted, s.unpauses, Cutoff(s.now, s.window)) >= QUORUM, QuorumNotReached);
    Ok((s.(paused := false, unpauses := map[], journal := s.journal + [Flipped(Unpause, s.trusted, s.now, s.window)]), ()))
  }

  // ---- Runs ----

  datatype Op =
    | OpInitialize(admin: Address, trusted: seq<Address>, window: u32)
    | OpSetTrustedNodes(caller: Address, trusted: seq<Address>)
    | OpSetProposeWindow(caller: Address, window: u32)
    | OpPropose(kind: Kind, node: Address)
    | OpExecute(kind: Kind)
    | OpPass(now: u32)

  function Step(s: State, op: Op): Result<State> {
    match op
    case OpInitialize(a, t, w) => Post(Initialize(s, a, t, w))
    case OpSetTrustedNodes(c, t) => Post(SetTrustedNodes(s, c, t))
    case OpSetProposeWindow(c, w) => Post(SetProposeWindow(s, c, w))
    case OpPropose(kind, n) => Post(if kind == Pause then ProposePause(s, n) else ProposeUnpause(s, n))
    case OpExecute(kind) => Post(if kind == Pause then ExecutePause(s) else ExecuteUnpause(s))
    case OpPass(now) => if s.now <= now then Ok(s.(now := now)) else Err(NotAuthorized)
  }

  function Post<V>(r: Result<(State, V)>): Result<State> {
    if r.Ok? then Ok(r.value.0) else Err(r.error)
  }

  function Apply(s: State, op: Op): State {
    if Step(s, op).Ok? then Step(s, op).value else s
  }

  function Run(s: State, ops: seq<Op>): State
    decreases |ops|
  {
    if ops == [] then s else Run(Apply(s, ops[0]), ops[1..])
  }

  function Fresh(now: u32): State {
    State(now, None, [], 0, map[], map[], false, [])
  }
}
