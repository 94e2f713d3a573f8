/** The payment channel contract as a state machine: its storage, and one
    function per entry point giving the state it leaves and the value it returns. */
module ChannelModel {
  import opened Base
  import opened Tokens
  import opened Amm
  import opened Oracle
  import opened Voucher

  const MAX_SLIPPAGE_BPS: int := 500
  const BPS_DENOMINATOR: int := 10_000
  const MAX_ROUTE_HOPS: int := 4
  const DEFAULT_DISPUTE_LEDGERS: u32 := 17_280
  const MIN_DISPUTE_LEDGERS: u32 := 720

  datatype SpendPeriod = PerLedger | Hourly | Daily

  function LedgersPerPeriod(period: SpendPeriod): u32 {
    match period
    case PerLedger => 1
    case Hourly => 720
    case Daily => 17_280
  }

  datatype Channel = Channel(
    agent: Address, owner: Address, token: Address,
    limit: int, period: SpendPeriod, spent: int, periodStart: int, totalSpent: int,
    active: bool, collateral: int, reserved: int, signer: Option<Bytes>, dispute: int)

  datatype Allocation = Allocation(amount: int, settled: int)

  datatype Settlement = Settlement(bestSequence: u64, best: int, first: int, openedAt: u32, byPayer: bool)

  datatype Key = Key(channel: u64, recipient: Address)

  datatype Hop = Hop(venue: Address, from: Address, to: Address, minOut: int)

  /** One movement of a channel's collateral, as seen on the token. */
  datatype Entry =
    | Opened(id: u64, amount: int, at: int)
    | ToppedUp(id: u64, amount: int)
    | Debited(id: u64, amount: int, at: int)
    | Returned(id: u64, amount: int)
    | Vouchered(id: u64, recipient: Address, amount: int)

  /** What lies outside the contract: time, token balances, the pause flag, the
      storage of the `AmmSwap` venues and price feeds it may call, and venues of
      unknown code. */
  datatype World = World(ledger: u32, balances: Balances, paused: bool,
                         venues: map<Address, Rates>, feeds: map<Address, Feed>, foreign: Foreign)

  datatype State = State(
    env: Env, world: World,
    channels: map<u64, Channel>, allocations: map<Key, Allocation>, settlements: map<Key, Settlement>,
    count: u64, amm: Option<Address>, oracle: Option<Address>,
    journal: seq<Entry>)

  // ---- Shared checks ----

  /** `require_auth` never succeeds for the contract's own address. */
  function Authorized(s: State, who: Address): Result<()> {
    Need(who != s.env.self, NotAuthorized)
  }

  function FindChannel(s: State, id: u64): Result<Channel> {
    if id in s.channels then Ok(s.channels[id]) else Err(ChannelNotFound)
  }

  function FindForAgent(s: State, id: u64, agent: Address): Result<Channel> {
    var c :- FindChannel(s, id);
    var _ :- Need(c.active, ChannelClosed);
    var _ :- Need(c.agent == agent, NotAgent);
    Ok(c)
  }

  function FindForOwner(s: State, id: u64, owner: Address): Result<Channel> {
    var c :- FindChannel(s, id);
    var _ :- Need(c.owner == owner, NotOwner);
    Ok(c)
  }

  /** Starts a new spend period once the current one has run its length. */
  function RollPeriod(c: Channel, now: int): Result<Channel> {
    var end := c.periodStart + LedgersPerPeriod(c.period);
    var _ :- Need(end <= U32_MAX, Overflow);
    Ok(if now >= end then c.(spent := 0, periodStart := now) else c)
  }

  function CheckSpend(c: Channel, amount: int): Result<()> {
    if c.spent + amount > I128_MAX then Err(Overflow)
    else if c.spent + amount > c.limit then Err(SpendLimitExceeded)
    else Need(amount <= c.collateral - c.reserved, InsufficientCollateral)
  }

  function Debit(s: State, id: u64, c: Channel, amount: int, balances: Balances): Result<State> {
    var _ :- Need(c.totalSpent + amount <= I128_MAX, Overflow);
    var spent := c.(spent := c.spent + amount, totalSpent := c.totalSpent + amount,
                    collateral := c.collateral - amount);
    Ok(s.(world := s.world.(balances := balances), channels := s.channels[id := spent],
          journal := s.journal + [Debited(id, amount, s.world.ledger)]))
  }

  // ---- On-chain payments ----

  function OpenChannel(s: State, owner: Address, agent: Address, token: Address,
                       deposit: i128, limit: i128, period: SpendPeriod): Result<(State, u64)>
  {
    var _ :- Authorized(s, owner);
    var _ :- Need(deposit > 0, AmountNotPositive);
    var _ :- Need(limit > 0, LimitNotPositive);
    var _ :- Need(limit <= deposit, LimitExceedsDeposit);
    var balances :- Transfer(s.world.balances, token, owner, s.env.self, deposit);
    var _ :- Need(s.count < U64_MAX, Overflow);
    var id := s.count + 1;
    var c := Channel(agent, owner, token, limit, period, 0, s.world.ledger, 0, true,
                     deposit, 0, None, DEFAULT_DISPUTE_LEDGERS);
    Ok((s.(world := s.world.(balances := balances), channels := s.channels[id := c], count := id,
           journal := s.journal + [Opened(id, deposit, s.world.ledger)]), id))
  }

  function Pay(s: State, agent: Address, id: u64, recipient: Address, amount: i128): Result<(State, ())> {
    var _ :- Need(!s.world.paused, Paused);
    var _ :- Authorized(s, agent);
    var found :- FindForAgent(s, id, agent);
    var _ :- Need(amount > 0, AmountNotPositive);
    var c :- RollPeriod(found, s.world.ledger);
    var _ :- CheckSpend(c, amount);
    var balances :- Transfer(s.world.balances, c.token, s.env.self, recipient, amount);
    var s' :- Debit(s, id, c, amount, balances);
    Ok((s', ()))
  }

  /** The least output a caller may accept: 95% of the feed's fair value, with
      both divisions rounding down. */
  function OracleFloor(amount: int, price: int): int {
    amount * price / PRICE_SCALE * (BPS_DENOMINATOR - MAX_SLIPPAGE_BPS) / BPS_DENOMINATOR
  }

  function RequireOracleFloor(s: State, from: Address, amount: int, to: Address, minReceived: int): Result<()> {
    if s.oracle.None? then Err(NotConfigured)
    else if s.oracle.value !in s.world.feeds then Err(InvocationFailed)
    else
      var price := GetPrice(s.world.feeds[s.oracle.value], s.world.ledger, from, to);
      if price.Err? then Err(price.error)
      else if amount * price.value > I128_MAX then Err(Overflow)
      else if amount * price.value / PRICE_SCALE * (BPS_DENOMINATOR - MAX_SLIPPAGE_BPS) > I128_MAX then Err(Overflow)
      else Need(minReceived >= OracleFloor(amount, price.value), SlippageTooLarge)
  }

  /** Pushes `amount` to a venue and has it pay `receiver`. A contract cannot be
      called back into, so the channel itself is never a venue. */
  function SwapAt(s: State, balances: Balances, venue: Address, from: Address, amount: int,
                  to: Address, minOut: int, receiver: Address): Result<(Balances, int)>
  {
    var pushed :- Transfer(balances, from, s.env.self, venue, amount);
    var _ :- Need(venue != s.env.self, InvocationFailed);
    if venue in s.world.venues then Swap(pushed, venue, s.world.venues[venue], from, amount, to, minOut, receiver)
    else ForeignSwap(pushed, venue, s.world.foreign, Call(from, amount, to, minOut, receiver))
  }

  /** A venue of unknown code: its report is taken on trust. */
  function ForeignSwap(b: Balances, venue: Address, foreign: Foreign, call: Call): Result<(Balances, int)> {
    var _ :- Need(venue in foreign && foreign[venue](call).Answers?, InvocationFailed);
    var answer := foreign[venue](call);
    var paid :- Transfer(b, call.to, venue, call.receiver, answer.delivered);
    Ok((paid, answer.reported))
  }

  function ExecuteConversion(s: State, from: Address, amount: int, to: Address,
                             minReceived: int, recipient: Address): Result<(Balances, int)>
  {
    var _ :- Need(s.amm.Some?, NotConfigured);
    var _ :- RequireOracleFloor(s, from, amount, to, minReceived);
    SwapAt(s, s.world.balances, s.amm.value, from, amount, to, minReceived, recipient)
  }

  function SameAsset(s: State, token: Address, amount: int, minReceived: int, recipient: Address): Result<(Balances, int)> {
    var _ :- Need(minReceived <= amount, MinimumNotMet);
    var balances :- Transfer(s.world.balances, token, s.env.self, recipient, amount);
    Ok((balances, amount))
  }

  function PayWithConversion(s: State, agent: Address, id: u64, recipient: Address, amount: i128,
                             destToken: Address, minReceived: i128): Result<(State, int)>
  {
    var _ :- Need(!s.world.paused, Paused);
    var _ :- Authorized(s, agent);
    var _ :- Need(amount > 0, AmountNotPositive);
    var _ :- Need(minReceived >= 0, NegativeMinimum);
    var found :- FindForAgent(s, id, agent);
    var c :- RollPeriod(found, s.world.ledger);
    var _ :- CheckSpend(c, amount);
    var moved :- if destToken == c.token then SameAsset(s, c.token, amount, minReceived, recipient)
                 else ExecuteConversion(s, c.token, amount, destToken, minReceived, recipient);
    var s' :- Debit(s, id, c, amount, moved.0);
    Ok((s', moved.1))
  }

  /** Validates one hop after another; `seen` holds the assets visited so far. */
  function CheckHops(self: Address, route: seq<Hop>, current: Address, seen: seq<Address>, dest: Address): Result<()> {
    if route == [] then Need(current == dest, RouteMissesDestination)
    else
      var hop := route[0];
      if hop.from != current then Err(RouteDiscontinuity)
      else if hop.from == hop.to then Err(HopKeepsAsset)
      else if hop.minOut < 0 then Err(NegativeMinOut)
      else if hop.venue == self then Err(VenueIsSelf)
      else if hop.to in seen then Err(RouteCycle)
      else CheckHops(self, route[1..], hop.to, seen + [hop.to], dest)
  }

  function CheckRoute(self: Address, route: seq<Hop>, from: Address, dest: Address): Result<()> {
    if route == [] then Err(RouteEmpty)
    else if |route| > MAX_ROUTE_HOPS then Err(RouteTooLong)
    else CheckHops(self, route, from, [from], dest)
  }

  function ExecuteHops(s: State, balances: Balances, route: seq<Hop>, amount: int,
                       minReceived: int, recipient: Address): Result<(Balances, int)>
    decreases |route|
  {
    if route == [] then Ok((balances, amount))
    else
      var hop := route[0];
      var final := |route| == 1;
      var floor := if final && minReceived > hop.minOut then minReceived else hop.minOut;
      var out :- SwapAt(s, balances, hop.venue, hop.from, amount, hop.to, floor,
                        if final then recipient else s.env.self);
      var _ :- Need(out.1 > 0 && out.1 >= floor, MinimumNotMet);
      ExecuteHops(s, out.0, route[1..], out.1, minReceived, recipient)
  }

  function ExecuteRoute(s: State, from: Address, amount: int, dest: Address, route: seq<Hop>,
                        minReceived: int, recipient: Address): Result<(Balances, int)>
  {
    var _ :- CheckRoute(s.env.self, route, from, dest);
    var _ :- RequireOracleFloor(s, from, amount, dest, minReceived);
    var out :- ExecuteHops(s, s.world.balances, route, amount, minReceived, recipient);
    var _ :- Need(out.1 >= minReceived, MinimumNotMet);
    Ok(out)
  }

  function PayWithRoute(s: State, agent: Address, id: u64, recipient: Address, amount: i128, destToken: Address,
                        route: seq<Hop>, minReceived: i128, validUntil: u32): Result<(State, int)>
  {
    var _ :- Need(!s.world.paused, Paused);
    var _ :- Authorized(s, agent);
    var _ :- Need(amount > 0, AmountNotPositive);
    var _ :- Need(minReceived >= 0, NegativeMinimum);
    var _ :- Need(s.world.ledger <= validUntil, QuoteExpired);
    var found :- FindForAgent(s, id, agent);
    var c :- RollPeriod(found, s.world.ledger);
    var _ :- CheckSpend(c, amount);
    var _ :- Need(destToken != c.token || route == [], RouteNotEmpty);
    var moved :- if destToken == c.token then SameAsset(s, c.token, amount, minReceived, recipient)
                 else ExecuteRoute(s, c.token, amount, destToken, route, minReceived, recipient);
    var s' :- Debit(s, id, c, amount, moved.0);
    Ok((s', moved.1))
  }

  // ---- The owner's side ----

  function TopUp(s: State, owner: Address, id: u64, amount: i128): Result<(State, ())> {
    var _ :- Authorized(s, owner);
    var c :- FindForOwner(s, id, owner);
    var _ :- Need(c.active, ChannelClosed);
    var _ :- Need(amount > 0, AmountNotPositive);
    var balances :- Transfer(s.world.balances, c.token, owner, s.env.self, amount);
    var _ :- Need(c.collateral + amount <= I128_MAX, Overflow);
    Ok((s.(world := s.world.(balances := balances),
           channels := s.channels[id := c.(collateral := c.collateral + amount)],
           journal := s.journal + [ToppedUp(id, amount)]), ()))
  }

  /** Sends everything not allocated back to the owner. */
  function ReturnFree(s: State, id: u64, c: Channel, active: bool): Result<State> {
    var free := c.collateral - c.reserved;
    var balances :- Transfer(s.world.balances, c.token, s.env.self, c.owner, free);
    Ok(s.(world := s.world.(balances := balances),
          channels := s.channels[id := c.(collateral := c.collateral - free, active := active)],
          journal := s.journal + [Returned(id, free)]))
  }

  function CloseChannel(s: State, owner: Address, id: u64): Result<(State, ())> {
    var _ :- Authorized(s, owner);
    var c :- FindForOwner(s, id, owner);
    if c.collateral - c.reserved <= 0 then
      Ok((s.(channels := s.channels[id := c.(active := false)]), ()))
    else
      var s' :- ReturnFree(s, id, c, false);
      Ok((s', ()))
  }

  function WithdrawFree(s: State, owner: Address, id: u64): Result<(State, int)> {
    var _ :- Authorized(s, owner);
    var c :- FindForOwner(s, id, owner);
    var free := c.collateral - c.reserved;
    if free <= 0 then Ok((s, 0))
    else
      var s' :- ReturnFree(s, id, c, c.active);
      Ok((s', free))
  }

  // ---- Vouchers ----

  function EnableVouchers(s: State, owner: Address, id: u64, signer: Bytes, dispute: u32): Result<(State, ())> {
    var _ :- Authorized(s, owner);
    var _ :- Need(dispute >= MIN_DISPUTE_LEDGERS, WindowTooShort);
    var c :- FindForOwner(s, id, owner);
    var _ :- Need(c.active, ChannelClosed);
    Ok((s.(channels := s.channels[id := c.(signer := Some(signer), dispute := dispute)]), ()))
  }

  function AllocationOf(s: State, k: Key): Allocation {
    if k in s.allocations then s.allocations[k] else Allocation(0, 0)
  }

  function Allocate(s: State, owner: Address, id: u64, recipient: Address, amount: i128): Result<(State, ())> {
    var _ :- Authorized(s, owner);
    var _ :- Need(amount > 0, AmountNotPositive);
    var c :- FindForOwner(s, id, owner);
    var _ :- Need(c.active, ChannelClosed);
    var _ :- Need(c.signer.Some?, VouchersDisabled);
    var _ :- Need(amount <= c.collateral - c.reserved, InsufficientCollateral);
    var k := Key(id, recipient);
    var _ :- Need(k !in s.settlements, CloseInFlight);
    var a := AllocationOf(s, k);
    Ok((s.(channels := s.channels[id := c.(reserved := c.reserved + amount)],
           allocations := s.allocations[k := a.(amount := a.amount + amount)]), ()))
  }

  function VerifyVoucher(s: State, c: Channel, k: Key, sequence: u64, amount: i128, signature: Bytes): Result<()> {
    if c.signer.None? then Err(VouchersDisabled)
    else if amount <= 0 then Err(VoucherNotPositive)
    else if k !in s.allocations then Err(NoAllocation)
    else if amount > s.allocations[k].amount then Err(ExceedsAllocation)
    else if amount <= s.allocations[k].settled then Err(AlreadySettled)
    else
      var message := Encode(ClaimOf(s.env, k.channel, k.recipient, sequence, amount));
      Need(s.env.verify(c.signer.value, message, signature), BadSignature)
  }

  /** Pays the difference between a cumulative total and what already went out,
      plus a penalty, and releases the whole reservation. */
  function PayOut(s: State, k: Key, amount: int, penalty: int): Result<State> {
    var c :- FindChannel(s, k.channel);
    var _ :- Need(k in s.allocations, NoAllocation);
    var a := s.allocations[k];
    var due := amount - a.settled + penalty;
    var _ :- Need(due >= 0, NothingOwed);
    var _ :- Need(due <= c.collateral, InsufficientCollateral);
    var balances :- Transfer(s.world.balances, c.token, s.env.self, k.recipient, due);
    var _ :- Need(c.totalSpent + due <= I128_MAX, Overflow);
    Ok(s.(world := s.world.(balances := balances),
          channels := s.channels[k.channel := c.(reserved := c.reserved - a.amount,
                                                 collateral := c.collateral - due,
                                                 totalSpent := c.totalSpent + due)],
          allocations := s.allocations[k := Allocation(0, amount + penalty)],
          journal := s.journal + [Vouchered(k.channel, k.recipient, due)]))
  }

  function CloseCooperative(s: State, id: u64, recipient: Address, sequence: u64, amount: i128,
                            signature: Bytes): Result<(State, int)>
  {
    var _ :- Need(!s.world.paused, Paused);
    var c :- FindChannel(s, id);
    var _ :- Authorized(s, c.owner);
    var _ :- Authorized(s, recipient);
    var k := Key(id, recipient);
    var _ :- VerifyVoucher(s, c, k, sequence, amount, signature);
    var _ :- Need(k !in s.settlements, CloseInFlight);
    var s' :- PayOut(s, k, amount, 0);
    Ok((s', amount))
  }

  function CloseUnilateral(s: State, closer: Address, id: u64, recipient: Address, sequence: u64, amount: i128,
                           signature: Bytes): Result<(State, ())>
  {
    var _ :- Need(!s.world.paused, Paused);
    var _ :- Authorized(s, closer);
    var c :- FindChannel(s, id);
    var k := Key(id, recipient);
    var _ :- VerifyVoucher(s, c, k, sequence, amount, signature);
    var _ :- Need(k !in s.settlements, CloseInFlight);
    var byPayer := closer == c.owner || closer == c.agent;
    Ok((s.(settlements := s.settlements[k := Settlement(sequence, amount, amount, s.world.ledger, byPayer)]), ()))
  }

  function Challenge(s: State, id: u64, recipient: Address, sequence: u64, amount: i128,
                     signature: Bytes): Result<(State, ())>
  {
    var c :- FindChannel(s, id);
    var k := Key(id, recipient);
    var _ :- VerifyVoucher(s, c, k, sequence, amount, signature);
    var _ :- Need(k in s.settlements, NoClose);
    var st := s.settlements[k];
    var _ :- Need(st.openedAt + c.dispute <= U32_MAX, Overflow);
    var _ :- Need(s.world.ledger < st.openedAt + c.dispute, ChallengeOver);
    var _ :- Need(Supersedes(amount, st.best), NotSuperseding);
    Ok((s.(settlements := s.settlements[k := st.(bestSequence := sequence, best := amount)]), ()))
  }

  /** What a payer-side close forfeits for having understated the debt. */
  function Penalty(reserved: int, st: Settlement): int {
    if st.byPayer && st.best > st.first then Min(st.best - st.first, reserved - st.best) else 0
  }

  function Finalize(s: State, id: u64, recipient: Address): Result<(State, int)> {
    var c :- FindChannel(s, id);
    var k := Key(id, recipient);
    var _ :- Need(k in s.settlements, NoClose);
    var st := s.settlements[k];
    var _ :- Need(st.openedAt + c.dispute <= U32_MAX, Overflow);
    var _ :- Need(s.world.ledger >= st.openedAt + c.dispute, WindowOpen);
    var _ :- Need(k in s.allocations, NoAllocation);
    var penalty := Penalty(s.allocations[k].amount, st);
    var s' :- PayOut(s.(settlements := s.settlements - {k}), k, st.best, penalty);
    Ok((s', st.best + penalty))
  }

  // ---- Runs ----

  /** Every transaction that can touch the channel contract, and what happens
      around it: `Outside` is any transaction of anyone else (time passes, other
      contracts change, but nobody else spends this contract's tokens), and
      `Configure` any outcome of the admin calls that set the venue and feed. */
  datatype Op =
    | OpOpen(owner: Address, agent: Address, token: Address, deposit: i128, limit: i128, period: SpendPeriod)
    | OpPay(agent: Address, id: u64, recipient: Address, amount: i128)
    | OpConvert(agent: Address, id: u64, recipient: Address, amount: i128, dest: Address, minReceived: i128)
    | OpRoute(agent: Address, id: u64, recipient: Address, amount: i128, dest: Address, route: seq<Hop>,
              minReceived: i128, validUntil: u32)
    | OpTopUp(owner: Address, id: u64, amount: i128)
    | OpClose(owner: Address, id: u64)
    | OpWithdraw(owner: Address, id: u64)
    | OpEnable(owner: Address, id: u64, signer: Bytes, dispute: u32)
    | OpAllocate(owner: Address, id: u64, recipient: Address, amount: i128)
    | OpCooperative(id: u64, recipient: Address, sequence: u64, amount: i128, signature: Bytes)
    | OpUnilateral(closer: Address, id: u64, recipient: Address, sequence: u64, amount: i128, signature: Bytes)
    | OpChallenge(id: u64, recipient: Address, sequence: u64, amount: i128, signature: Bytes)
    | OpFinalize(id: u64, recipient: Address)
    | OpConfigure(amm: Option<Address>, oracle: Option<Address>)
    | OpOutside(world: World)

  predicate IsPayment(op: Op) {
    op.OpPay? || op.OpConvert? || op.OpRoute?
  }

  /** Others move time forward and never this contract's balances down. */
  ghost predicate Permitted(self: Address, before: World, after: World) {
    && before.ledger <= after.ledger
    && (Solvent(before.balances) ==> Solvent(after.balances))
    && forall t :: BalanceOf(before.balances, t, self) <= BalanceOf(after.balances, t, self)
  }

  ghost function Step(s: State, op: Op): Result<State> {
    match op
    case OpOpen(o, a, t, d, l, p) => Post(OpenChannel(s, o, a, t, d, l, p))
    case OpPay(a, id, r, n) => Post(Pay(s, a, id, r, n))
    case OpConvert(a, id, r, n, d, m) => Post(PayWithConversion(s, a, id, r, n, d, m))
    case OpRoute(a, id, r, n, d, route, m, v) => Post(PayWithRoute(s, a, id, r, n, d, route, m, v))
    case OpTopUp(o, id, n) => Post(TopUp(s, o, id, n))
    case OpClose(o, id) => Post(CloseChannel(s, o, id))
    case OpWithdraw(o, id) => Post(WithdrawFree(s, o, id))
    case OpEnable(o, id, k, d) => Post(EnableVouchers(s, o, id, k, d))
    case OpAllocate(o, id, r, n) => Post(Allocate(s, o, id, r, n))
    case OpCooperative(id, r, q, n, g) => Post(CloseCooperative(s, id, r, q, n, g))
    case OpUnilateral(c, id, r, q, n, g) => Post(CloseUnilateral(s, c, id, r, q, n, g))
    case OpChallenge(id, r, q, n, g) => Post(Challenge(s, id, r, q, n, g))
    case OpFinalize(id, r) => Post(Finalize(s, id, r))
    case OpConfigure(amm, oracle) => Ok(s.(amm := amm, oracle := oracle))
    case OpOutside(w) => if Permitted(s.env.self, s.world, w) then Ok(s.(world := w)) else Err(NotAuthorized)
  }

  function Post<V>(r: Result<(State, V)>): Result<State> {
    if r.Ok? then Ok(r.value.0) else Err(r.error)
  }

  /** A reverted transaction leaves the state as it was. */
  ghost function Apply(s: State, op: Op): State {
    if Step(s, op).Ok? then Step(s, op).value else s
  }

  ghost function Run(s: State, ops: seq<Op>): State
    decreases |ops|
  {
    if ops == [] then s else Run(Apply(s, ops[0]), ops[1..])
  }

  /** A freshly deployed contract in any world. */
  ghost predicate Fresh(s: State) {
    && Solvent(s.world.balances)
    && s.channels == map[] && s.allocations == map[] && s.settlements == map[]
    && s.count == 0 && s.journal == []
  }
}
