/** What every transaction keeps, and hence what holds in every reachable state
    of the payment channel contract. */
module ChannelInvariant {
  import opened Base
  import opened MapSum
  import opened Tokens
  import opened Amm
  import opened Voucher
  import opened ChannelModel
  import opened ChannelJournal
  import Rates = ChannelRates
  import Routes = ChannelRoutes

  // ---- Summed quantities ----

  function AmountsOf(allocations: map<Key, Allocation>, id: u64): map<Key, int> {
    map k | k in allocations && k.channel == id :: allocations[k].amount
  }

  function SettledOf(allocations: map<Key, Allocation>, id: u64): map<Key, int> {
    map k | k in allocations && k.channel == id :: allocations[k].settled
  }

  function CollateralIn(channels: map<u64, Channel>, token: Address): map<u64, int> {
    map id | id in channels && channels[id].token == token :: channels[id].collateral
  }

  lemma AllocationUpdate(allocations: map<Key, Allocation>, k: Key, a: Allocation)
    ensures forall id | id != k.channel ::
              AmountsOf(allocations[k := a], id) == AmountsOf(allocations, id)
              && SettledOf(allocations[k := a], id) == SettledOf(allocations, id)
    ensures Sum(AmountsOf(allocations[k := a], k.channel))
         == Sum(AmountsOf(allocations, k.channel)) - (if k in allocations then allocations[k].amount else 0) + a.amount
    ensures Sum(SettledOf(allocations[k := a], k.channel))
         == Sum(SettledOf(allocations, k.channel)) - (if k in allocations then allocations[k].settled else 0) + a.settled
  {
    var id := k.channel;
    assert AmountsOf(allocations[k := a], id) == AmountsOf(allocations, id)[k := a.amount];
    assert SettledOf(allocations[k := a], id) == SettledOf(allocations, id)[k := a.settled];
    SumUpdate(AmountsOf(allocations, id), k, a.amount);
    SumUpdate(SettledOf(allocations, id), k, a.settled);
  }

  lemma CollateralUpdate(channels: map<u64, Channel>, id: u64, c: Channel)
    requires id in channels ==> channels[id].token == c.token
    ensures forall t :: Sum<u64>(CollateralIn(channels[id := c], t))
                     == Sum<u64>(CollateralIn(channels, t))
                        + (if t == c.token then c.collateral - (if id in channels then channels[id].collateral else 0) else 0)
  {
    forall t
      ensures Sum<u64>(CollateralIn(channels[id := c], t))
           == Sum<u64>(CollateralIn(channels, t))
              + (if t == c.token then c.collateral - (if id in channels then channels[id].collateral else 0) else 0)
    {
      if t == c.token {
        assert CollateralIn(channels[id := c], t) == CollateralIn(channels, t)[id := c.collateral];
        SumUpdate<u64>(CollateralIn(channels, t), id, c.collateral);
      } else {
        assert CollateralIn(channels[id := c], t) == CollateralIn(channels, t);
      }
    }
  }

  // ---- The invariant ----

  ghost predicate ChannelOk(self: Address, now: int, c: Channel) {
    && c.owner != self
    && 0 <= c.reserved <= c.collateral <= I128_MAX
    && 0 < c.limit <= I128_MAX && 0 <= c.spent <= c.limit
    && 0 <= c.totalSpent <= I128_MAX
    && 0 <= c.periodStart <= now
    && MIN_DISPUTE_LEDGERS <= c.dispute <= U32_MAX
  }

  ghost predicate ChannelsOk(self: Address, now: int, channels: map<u64, Channel>, count: u64) {
    forall id | id in channels :: id <= count && ChannelOk(self, now, channels[id])
  }

  ghost predicate AllocationsOk(channels: map<u64, Channel>, allocations: map<Key, Allocation>) {
    forall k {:trigger k in allocations} {:trigger allocations[k]} | k in allocations :: k.channel in channels && 0 <= allocations[k].amount && 0 <= allocations[k].settled
  }

  /** A close in flight claims more than was settled and no more than is allocated. */
  ghost predicate SettlementOk(now: int, st: Settlement, a: Allocation) {
    a.settled < st.first <= st.best <= a.amount && st.openedAt <= now
  }

  ghost predicate SettlementsOk(now: int, allocations: map<Key, Allocation>, settlements: map<Key, Settlement>) {
    forall k | k in settlements :: k in allocations && SettlementOk(now, settlements[k], allocations[k])
  }

  ghost predicate JournalOk(channels: map<u64, Channel>, journal: seq<Entry>) {
    forall i | 0 <= i < |journal| :: journal[i].id in channels && 0 <= journal[i].amount
  }

  /** `reserved` is the sum of the recipients' allocations. */
  ghost predicate Reserved(channels: map<u64, Channel>, allocations: map<Key, Allocation>) {
    forall id | id in channels :: channels[id].reserved == Sum(AmountsOf(allocations, id))
  }

  /** What the contract holds of a token beyond the collateral of its channels. */
  ghost function Surplus(s: State, token: Address): int {
    BalanceOf(s.world.balances, token, s.env.self) - Sum<u64>(CollateralIn(s.channels, token))
  }

  ghost predicate Custody(self: Address, balances: Balances, channels: map<u64, Channel>) {
    forall t {:trigger CollateralIn(channels, t)} :: Sum<u64>(CollateralIn(channels, t)) <= BalanceOf(balances, t, self)
  }

  function CollateralOf(channels: map<u64, Channel>, id: u64): int {
    if id in channels then channels[id].collateral else 0
  }

  function SpentOf(channels: map<u64, Channel>, id: u64): int {
    if id in channels then channels[id].totalSpent else 0
  }

  function SettledFor(allocations: map<Key, Allocation>, k: Key): int {
    if k in allocations then allocations[k].settled else 0
  }

  /** Everything that came in is still there, was spent, or went back to the
      owner; everything spent was debited on chain or settled by voucher. */
  ghost predicate Balanced(channels: map<u64, Channel>, allocations: map<Key, Allocation>, journal: seq<Entry>, id: u64) {
    && Total(journal, Deposits(id)) == CollateralOf(channels, id) + SpentOf(channels, id) + Total(journal, Returns(id))
    && SpentOf(channels, id) == Total(journal, Debits(id)) + Sum(SettledOf(allocations, id))
    && Total(journal, Vouchers(id)) == Sum(SettledOf(allocations, id))
  }

  ghost predicate Books(channels: map<u64, Channel>, allocations: map<Key, Allocation>, journal: seq<Entry>) {
    forall id :: Balanced(channels, allocations, journal, id)
  }

  /** All voucher transfers to a recipient telescope to what is settled with it. */
  ghost predicate Telescoped(allocations: map<Key, Allocation>, journal: seq<Entry>) {
    forall k: Key {:trigger SettledFor(allocations, k)} :: Total(journal, VouchersTo(k.channel, k.recipient)) == SettledFor(allocations, k)
  }

  ghost predicate Paced(channels: map<u64, Channel>, journal: seq<Entry>) {
    forall id | id in channels :: Rates.Paced(journal, id, channels[id])
  }

  /** Everything but custody: what holds whatever venues answer. */
  ghost predicate Sound(s: State) {
    && Solvent(s.world.balances)
    && ChannelsOk(s.env.self, s.world.ledger, s.channels, s.count)
    && AllocationsOk(s.channels, s.allocations)
    && SettlementsOk(s.world.ledger, s.allocations, s.settlements)
    && JournalOk(s.channels, s.journal)
    && Reserved(s.channels, s.allocations)
    && Books(s.channels, s.allocations, s.journal)
    && Telescoped(s.allocations, s.journal)
    && Paced(s.channels, s.journal)
  }

  /** And custody: of every token the contract holds at least the collateral. */
  ghost predicate Inv(s: State) {
    Sound(s) && Custody(s.env.self, s.world.balances, s.channels)
  }

  /** What each transaction promises: the books, and a surplus that never shrinks. */
  ghost predicate Kept(s: State, s': State) {
    Sound(s) ==> Sound(s') && forall t :: Surplus(s, t) <= Surplus(s', t)
  }

  /** What the invariant says about one channel. */
  lemma ChannelFacts(s: State, id: u64)
    requires Sound(s) && id in s.channels
    ensures id <= s.count && ChannelOk(s.env.self, s.world.ledger, s.channels[id])
    ensures Rates.Paced(s.journal, id, s.channels[id]) && Rates.NonNegative(s.journal)
  {
    hide Rates.Paced, Books, Telescoped, Reserved;
  }

  // ---- How the invariant survives one write ----

  /** `s'` differs from `s` at one channel, whose token stays; the contract's
      balances follow that channel's collateral. */
  ghost predicate WritesChannel(s: State, s': State, id: u64) {
    && s'.env == s.env && s'.world.ledger == s.world.ledger && s'.settlements == s.settlements
    && id in s'.channels && s'.channels == s.channels[id := s'.channels[id]]
    && (id in s.channels ==> s'.channels[id].token == s.channels[id].token)
    && s.count <= s'.count && id <= s'.count
    && ChannelOk(s.env.self, s.world.ledger, s'.channels[id])
    && (Solvent(s.world.balances) ==> Solvent(s'.world.balances))
    && forall t ::
         BalanceOf(s.world.balances, t, s.env.self)
         + (if t == s'.channels[id].token then CollateralOf(s'.channels, id) - CollateralOf(s.channels, id) else 0)
         <= BalanceOf(s'.world.balances, t, s.env.self)
  }

  /** One channel's collateral moves on chain, and the journal says so. */
  ghost predicate Moves(s: State, s': State, id: u64, e: Entry) {
    && WritesChannel(s, s', id)
    && s'.allocations == s.allocations
    && e.id == id && !e.Vouchered? && 0 <= e.amount && s'.journal == s.journal + [e]
    && CollateralOf(s'.channels, id) - CollateralOf(s.channels, id)
       == Part(e, Deposits(id)) - Part(e, Debits(id)) - Part(e, Returns(id))
    && SpentOf(s'.channels, id) - SpentOf(s.channels, id) == Part(e, Debits(id))
    && s'.channels[id].reserved == if id in s.channels then s.channels[id].reserved else 0
  }

  /** The surplus of no token ever shrinks. */
  lemma SurplusGrows(s: State, s': State, id: u64)
    requires WritesChannel(s, s', id)
    ensures forall t :: Surplus(s, t) <= Surplus(s', t)
  {
    CollateralUpdate(s.channels, id, s'.channels[id]);
    forall t
      ensures Surplus(s, t) <= Surplus(s', t)
    {
      assert CollateralIn(s.channels[id := s'.channels[id]], t) == CollateralIn(s'.channels, t);
    }
  }

  lemma MoveKeepsBooks(s: State, s': State, id: u64, e: Entry)
    requires Books(s.channels, s.allocations, s.journal) && Telescoped(s.allocations, s.journal)
    requires Moves(s, s', id, e)
    ensures Books(s'.channels, s'.allocations, s'.journal) && Telescoped(s'.allocations, s'.journal)
  {
    Append(s.journal, e);
    forall i
      ensures Balanced(s'.channels, s'.allocations, s'.journal, i)
    {
      assert Balanced(s.channels, s.allocations, s.journal, i);
    }
  }

  /** The other channels' pace does not depend on this one's entries. */
  lemma OthersKeepPace(s: State, s': State, id: u64, e: Entry)
    requires Paced(s.channels, s.journal) && id in s'.channels && s'.channels == s.channels[id := s'.channels[id]]
    requires e.id == id && s'.journal == s.journal + [e]
    requires Rates.Paced(s'.journal, id, s'.channels[id])
    ensures Paced(s'.channels, s'.journal)
  {
    forall i | i in s'.channels && i != id
      ensures Rates.Paced(s'.journal, i, s'.channels[i])
    {
      Rates.OtherEntryKeepsPace(s.journal, i, s.channels[i], s'.channels[i], e);
    }
  }

  lemma MoveKeepsReservations(s: State, s': State, id: u64, e: Entry)
    requires Reserved(s.channels, s.allocations) && AllocationsOk(s.channels, s.allocations)
    requires Moves(s, s', id, e)
    ensures Reserved(s'.channels, s'.allocations)
  {
    if id !in s.channels {
      assert AmountsOf(s'.allocations, id) == map[];
    }
  }

  lemma EntryKeepsJournal(channels: map<u64, Channel>, channels': map<u64, Channel>, journal: seq<Entry>, e: Entry)
    requires JournalOk(channels, journal) && channels.Keys <= channels'.Keys && e.id in channels' && 0 <= e.amount
    ensures JournalOk(channels', journal) && JournalOk(channels', journal + [e])
  {}

  lemma WriteKeepsChannels(s: State, s': State, id: u64)
    requires ChannelsOk(s.env.self, s.world.ledger, s.channels, s.count) && WritesChannel(s, s', id)
    ensures ChannelsOk(s'.env.self, s'.world.ledger, s'.channels, s'.count)
    ensures s.channels.Keys <= s'.channels.Keys
  {}

  lemma WriteKeepsAllocations(channels: map<u64, Channel>, channels': map<u64, Channel>,
                              allocations: map<Key, Allocation>, k: Key, a: Allocation)
    requires AllocationsOk(channels, allocations) && channels.Keys <= channels'.Keys
    ensures AllocationsOk(channels', allocations)
    ensures k.channel in channels' && 0 <= a.amount && 0 <= a.settled ==> AllocationsOk(channels', allocations[k := a])
  {}

  lemma MoveKeeps(s: State, s': State, id: u64, e: Entry)
    requires Sound(s) && Moves(s, s', id, e)
    requires Rates.Paced(s'.journal, id, s'.channels[id])
    ensures Kept(s, s')
  {
    hide ChannelsOk, AllocationsOk, JournalOk, Reserved, Books, Telescoped, Paced, Rates.Paced;
    WriteKeepsChannels(s, s', id);
    WriteKeepsAllocations(s.channels, s'.channels, s.allocations, Key(id, 0), Allocation(0, 0));
    EntryKeepsJournal(s.channels, s'.channels, s.journal, e);
    MoveKeepsReservations(s, s', id, e);
    SurplusGrows(s, s', id);
    MoveKeepsBooks(s, s', id, e);
    OthersKeepPace(s, s', id, e);
  }

  // ---- One lemma per transaction ----

  lemma OpenKeeps(s: State, owner: Address, agent: Address, token: Address, deposit: i128, limit: i128, period: SpendPeriod)
    requires Sound(s) && OpenChannel(s, owner, agent, token, deposit, limit, period).Ok?
    ensures Kept(s, OpenChannel(s, owner, agent, token, deposit, limit, period).value.0)
  {
    hide Kept, Rates.Paced, Transfer, Books, Telescoped, Reserved, AllocationsOk;
    var (s', id) := OpenChannel(s, owner, agent, token, deposit, limit, period).value;
    var c, e := s'.channels[id], Opened(id, deposit, s.world.ledger);
    assert id !in s.channels;
    Rates.OpeningKeepsPace(s.journal, id, c, e);
    MoveKeeps(s, s', id, e);
  }

  lemma DebitMoves(s: State, id: u64, c: Channel, amount: int, balances: Balances)
    requires id in s.channels && ChannelOk(s.env.self, s.world.ledger, s.channels[id]) && ChannelOk(s.env.self, s.world.ledger, c) && 0 < amount
    requires c == s.channels[id].(spent := c.spent, periodStart := c.periodStart)
    requires CheckSpend(c, amount).Ok? && Debit(s, id, c, amount, balances).Ok? && id <= s.count
    requires Routes.CostsAtMost(s.env.self, s.world.balances, balances, c.token, amount)
    ensures var s' := Debit(s, id, c, amount, balances).value;
            Moves(s, s', id, Debited(id, amount, s.world.ledger))
  {}

  /** The debit at the end of every on-chain payment. */
  lemma DebitKeeps(s: State, id: u64, amount: int, balances: Balances)
    requires Sound(s) && id in s.channels && 0 < amount
    requires RollPeriod(s.channels[id], s.world.ledger).Ok?
    requires var c := RollPeriod(s.channels[id], s.world.ledger).value;
             && CheckSpend(c, amount).Ok?
             && Debit(s, id, c, amount, balances).Ok?
             && Routes.CostsAtMost(s.env.self, s.world.balances, balances, c.token, amount)
    ensures var c := RollPeriod(s.channels[id], s.world.ledger).value;
            Kept(s, Debit(s, id, c, amount, balances).value)
  {
    hide Sound, Kept, Rates.Paced, Moves;
    var c := RollPeriod(s.channels[id], s.world.ledger).value;
    var s' := Debit(s, id, c, amount, balances).value;
    ChannelFacts(s, id);
    DebitMoves(s, id, c, amount, balances);
    Rates.PaymentKeepsPace(s.journal, id, s.channels[id], s'.channels[id], amount, s.world.ledger);
    MoveKeeps(s, s', id, Debited(id, amount, s.world.ledger));
  }

  lemma PayKeeps(s: State, agent: Address, id: u64, recipient: Address, amount: i128)
    requires Sound(s) && Pay(s, agent, id, recipient, amount).Ok?
    ensures Kept(s, Pay(s, agent, id, recipient, amount).value.0)
  {
    hide Sound, Kept;
    var c := RollPeriod(s.channels[id], s.world.ledger).value;
    DebitKeeps(s, id, amount, Transfer(s.world.balances, c.token, s.env.self, recipient, amount).value);
  }

  lemma ConvertKeeps(s: State, agent: Address, id: u64, recipient: Address, amount: i128, dest: Address, minReceived: i128)
    requires Sound(s) && PayWithConversion(s, agent, id, recipient, amount, dest, minReceived).Ok?
    ensures Kept(s, PayWithConversion(s, agent, id, recipient, amount, dest, minReceived).value.0)
  {
    hide Sound, Kept;
    var token := s.channels[id].token;
    if dest == token {
      Routes.SameAssetCosts(s, token, amount, minReceived, recipient);
      DebitKeeps(s, id, amount, SameAsset(s, token, amount, minReceived, recipient).value.0);
    } else {
      Routes.ConversionCosts(s, token, amount, dest, minReceived, recipient);
      DebitKeeps(s, id, amount, ExecuteConversion(s, token, amount, dest, minReceived, recipient).value.0);
    }
  }

  /** The books do not read the balances. */
  lemma SoundWith(s: State, balances: Balances)
    requires Sound(s) && Solvent(balances)
    ensures Sound(s.(world := s.world.(balances := balances)))
  {}

  /** The surplus a route leaves: less of each token what its venues reported but did
      not deliver. */
  ghost predicate PaysShortfalls(s: State, s': State, route: seq<Hop>, amount: int, dest: Address, minReceived: int,
                                 recipient: Address) {
    forall t ::
      Surplus(s', t) == Surplus(s, t) - Routes.Shortfall(s, route, amount, minReceived, recipient, t)
                        + (if recipient == s.env.self && t == dest
                           then Routes.Delivered(s, route, amount, minReceived, recipient) else 0)
  }

  lemma SameAssetRouteKeeps(s: State, agent: Address, id: u64, recipient: Address, amount: i128, dest: Address,
                            route: seq<Hop>, minReceived: i128, validUntil: u32)
    requires Sound(s) && PayWithRoute(s, agent, id, recipient, amount, dest, route, minReceived, validUntil).Ok?
    requires s.channels[id].token == dest
    ensures Kept(s, PayWithRoute(s, agent, id, recipient, amount, dest, route, minReceived, validUntil).value.0)
  {
    hide Sound, Kept;
    Routes.SameAssetCosts(s, dest, amount, minReceived, recipient);
    DebitKeeps(s, id, amount, SameAsset(s, dest, amount, minReceived, recipient).value.0);
  }

  /** But for the balances, a routed payment is an ordinary debit. */
  lemma RouteDebits(s: State, agent: Address, id: u64, recipient: Address, amount: i128, dest: Address,
                    route: seq<Hop>, minReceived: i128, validUntil: u32)
    requires PayWithRoute(s, agent, id, recipient, amount, dest, route, minReceived, validUntil).Ok?
    ensures var s' := PayWithRoute(s, agent, id, recipient, amount, dest, route, minReceived, validUntil).value.0;
            && id in s.channels && 0 < amount && s'.env == s.env
            && RollPeriod(s.channels[id], s.world.ledger).Ok?
            && var c := RollPeriod(s.channels[id], s.world.ledger).value;
               && CheckSpend(c, amount).Ok? && c.token == s.channels[id].token && c.collateral == s.channels[id].collateral
               && Debit(s, id, c, amount, s.world.balances).Ok?
               && s' == Debit(s, id, c, amount, s.world.balances).value.(world := s'.world)
               && s'.world == s.world.(balances := s'.world.balances)
               && id in s'.channels && s'.channels == s.channels[id := s'.channels[id]] && s'.channels[id].token == c.token
               && s'.channels[id].collateral == c.collateral - amount
  {
    hide ExecuteRoute, SameAsset, CheckSpend;
  }

  /** Whatever its venues answer, a route keeps the books, and the surplus pays for
      exactly the shortfalls. */
  lemma RouteKeeps(s: State, agent: Address, id: u64, recipient: Address, amount: i128, dest: Address,
                   route: seq<Hop>, minReceived: i128, validUntil: u32)
    requires Sound(s) && PayWithRoute(s, agent, id, recipient, amount, dest, route, minReceived, validUntil).Ok?
    requires s.channels[id].token != dest
    ensures var s' := PayWithRoute(s, agent, id, recipient, amount, dest, route, minReceived, validUntil).value.0;
            Sound(s') && PaysShortfalls(s, s', route, amount, dest, minReceived, recipient)
  {
    hide Sound, Kept, PayWithRoute, CheckSpend, Debit, Routes.Shortfall, Routes.Delivered, Routes.AboveFloor, Solvent, Surplus, Routes.Moved;
    RouteDebits(s, agent, id, recipient, amount, dest, route, minReceived, validUntil);
    Routes.RouteDelivers(s, agent, id, recipient, amount, dest, route, minReceived, validUntil);
    var s' := PayWithRoute(s, agent, id, recipient, amount, dest, route, minReceived, validUntil).value.0;
    var c := RollPeriod(s.channels[id], s.world.ledger).value;
    var unmoved := Debit(s, id, c, amount, s.world.balances).value;
    BalancesAreSolvent(s);
    StillCosts(s, c.token, amount);
    DebitKeeps(s, id, amount, s.world.balances);
    KeptSound(s, unmoved);
    assert unmoved.world == s.world by { DebitStays(s, id, c, amount); }
    SoundWith(unmoved, s'.world.balances);
    RouteSurplus(s, s', id, route, amount, dest, minReceived, recipient);
  }

  lemma DebitStays(s: State, id: u64, c: Channel, amount: int)
    requires Debit(s, id, c, amount, s.world.balances).Ok?
    ensures Debit(s, id, c, amount, s.world.balances).value.world == s.world
  {}

  lemma StillCosts(s: State, token: Address, amount: int)
    requires 0 < amount
    ensures Routes.CostsAtMost(s.env.self, s.world.balances, s.world.balances, token, amount)
  {}

  lemma KeptSound(s: State, s': State)
    requires Sound(s) && Kept(s, s')
    ensures Sound(s')
  {}

  lemma BalancesAreSolvent(s: State)
    requires Sound(s)
    ensures Solvent(s.world.balances)
  {
    hide ChannelsOk, AllocationsOk, SettlementsOk, JournalOk, Reserved, Books, Telescoped, Paced;
  }

  lemma RouteSurplus(s: State, s': State, id: u64, route: seq<Hop>, amount: int, dest: Address, minReceived: int, recipient: Address)
    requires id in s.channels && id in s'.channels && s'.channels == s.channels[id := s'.channels[id]] && s'.env == s.env
    requires s'.channels[id].token == s.channels[id].token && s'.channels[id].collateral == s.channels[id].collateral - amount
    requires Routes.SimplePath(s.channels[id].token, route, dest) && Routes.Bystander(route, s.env.self)
    requires Routes.Moved(s, s.world.balances, s'.world.balances, route, s.channels[id].token, amount, minReceived, recipient)
    ensures PaysShortfalls(s, s', route, amount, dest, minReceived, recipient)
  {
    hide Routes.Shortfall, Routes.Delivered, Routes.Bystander, Sum, CollateralIn;
    CollateralUpdate(s.channels, id, s'.channels[id]);
  }

  lemma TopUpMoves(s: State, owner: Address, id: u64, amount: i128)
    requires id in s.channels && ChannelOk(s.env.self, s.world.ledger, s.channels[id]) && id <= s.count && TopUp(s, owner, id, amount).Ok?
    ensures var s' := TopUp(s, owner, id, amount).value.0;
            Moves(s, s', id, ToppedUp(id, amount))
  {}

  lemma TopUpKeeps(s: State, owner: Address, id: u64, amount: i128)
    requires Sound(s) && TopUp(s, owner, id, amount).Ok?
    ensures Kept(s, TopUp(s, owner, id, amount).value.0)
  {
    hide Sound, Kept, Rates.Paced, Moves;
    var s' := TopUp(s, owner, id, amount).value.0;
    ChannelFacts(s, id);
    TopUpMoves(s, owner, id, amount);
    Rates.OtherEntryKeepsPace(s.journal, id, s.channels[id], s'.channels[id], ToppedUp(id, amount));
    MoveKeeps(s, s', id, ToppedUp(id, amount));
  }

  lemma ReturnMoves(s: State, id: u64, active: bool)
    requires id in s.channels && ChannelOk(s.env.self, s.world.ledger, s.channels[id]) && id <= s.count
    requires ReturnFree(s, id, s.channels[id], active).Ok?
    ensures var c, s' := s.channels[id], ReturnFree(s, id, s.channels[id], active).value;
            Moves(s, s', id, Returned(id, c.collateral - c.reserved))
  {}

  lemma ReturnKeeps(s: State, id: u64, active: bool)
    requires Sound(s) && id in s.channels && ReturnFree(s, id, s.channels[id], active).Ok?
    ensures Kept(s, ReturnFree(s, id, s.channels[id], active).value)
  {
    hide Sound, Kept, Rates.Paced, Moves;
    var c := s.channels[id];
    var s' := ReturnFree(s, id, c, active).value;
    var e := Returned(id, c.collateral - c.reserved);
    ChannelFacts(s, id);
    ReturnMoves(s, id, active);
    Rates.OtherEntryKeepsPace(s.journal, id, c, s'.channels[id], e);
    MoveKeeps(s, s', id, e);
  }

  /** A change of a channel's flag, signer or window, which moves nothing. */
  ghost predicate Relabels(s: State, s': State, id: u64) {
    && id in s.channels && id in s'.channels && id <= s.count
    && s' == s.(channels := s.channels[id := s'.channels[id]])
    && ChannelOk(s.env.self, s.world.ledger, s'.channels[id])
    && var c, c' := s.channels[id], s'.channels[id];
       c' == c.(active := c'.active, signer := c'.signer, dispute := c'.dispute)
  }

  lemma RelabelKeepsBooks(s: State, s': State, id: u64)
    requires Books(s.channels, s.allocations, s.journal) && Relabels(s, s', id)
    ensures Books(s'.channels, s'.allocations, s'.journal)
  {
    forall i
      ensures Balanced(s'.channels, s'.allocations, s'.journal, i)
    {
      assert Balanced(s.channels, s.allocations, s.journal, i);
    }
  }

  lemma RelabelKeepsPace(s: State, s': State, id: u64)
    requires Paced(s.channels, s.journal) && Relabels(s, s', id)
    ensures Paced(s'.channels, s'.journal)
  {
    forall i | i in s'.channels
      ensures Rates.Paced(s'.journal, i, s'.channels[i])
    {
      Rates.SamePeriodSamePace(s.journal, i, s.channels[i], s'.channels[i]);
    }
  }

  lemma RelabelKeeps(s: State, s': State, id: u64)
    requires Sound(s) && Relabels(s, s', id)
    ensures Kept(s, s')
  {
    hide ChannelsOk, Books, Telescoped, Paced, Rates.Paced;
    WriteKeepsChannels(s, s', id);
    SurplusGrows(s, s', id);
    RelabelKeepsBooks(s, s', id);
    RelabelKeepsPace(s, s', id);
  }

  lemma CloseKeeps(s: State, owner: Address, id: u64)
    requires Sound(s) && CloseChannel(s, owner, id).Ok?
    ensures Kept(s, CloseChannel(s, owner, id).value.0)
  {
    hide Sound, Kept;
    ChannelFacts(s, id);
    if s.channels[id].collateral - s.channels[id].reserved > 0 {
      ReturnKeeps(s, id, false);
    } else {
      RelabelKeeps(s, CloseChannel(s, owner, id).value.0, id);
    }
  }

  lemma WithdrawKeeps(s: State, owner: Address, id: u64)
    requires Sound(s) && WithdrawFree(s, owner, id).Ok?
    ensures Kept(s, WithdrawFree(s, owner, id).value.0)
  {
    if s.channels[id].collateral - s.channels[id].reserved > 0 {
      ReturnKeeps(s, id, s.channels[id].active);
    }
  }

  lemma EnableKeeps(s: State, owner: Address, id: u64, signer: Bytes, dispute: u32)
    requires Sound(s) && EnableVouchers(s, owner, id, signer, dispute).Ok?
    ensures Kept(s, EnableVouchers(s, owner, id, signer, dispute).value.0)
  {
    hide Sound, Kept;
    ChannelFacts(s, id);
    RelabelKeeps(s, EnableVouchers(s, owner, id, signer, dispute).value.0, id);
  }

  // ---- Allocations and payouts ----

  /** No allocation exceeds what its channel has reserved. */
  lemma AllocationWithinReserved(channels: map<u64, Channel>, allocations: map<Key, Allocation>, k: Key)
    requires AllocationsOk(channels, allocations) && Reserved(channels, allocations) && k in allocations
    ensures k.channel in channels && allocations[k].amount <= channels[k.channel].reserved
  {
    var amounts := AmountsOf(allocations, k.channel);
    SumBounds(amounts);
    assert amounts[k] == allocations[k].amount;
  }

  /** One allocation without a close in flight changes with its channel; what
      is paid out is recorded. */
  ghost predicate Reallocates(s: State, s': State, k: Key, paid: int) {
    var id := k.channel;
    && id in s.channels && WritesChannel(s, s', id)
    && k in s'.allocations && s'.allocations == s.allocations[k := s'.allocations[k]] && k !in s.settlements
    && 0 <= s'.allocations[k].amount && 0 <= paid && 0 <= SettledFor(s.allocations, k)
    && s'.journal == (if paid == 0 && s'.journal == s.journal then s.journal
                      else s.journal + [Vouchered(id, k.recipient, paid)])
    && s'.allocations[k].settled == SettledFor(s.allocations, k) + paid
    && var c, c' := s.channels[id], s'.channels[id];
       && c'.reserved == c.reserved - AllocationOf(s, k).amount + s'.allocations[k].amount
       && c'.collateral == c.collateral - paid
       && c'.totalSpent == c.totalSpent + paid
       && Rates.SamePeriod(c, c') && c'.spent == c.spent
  }

  lemma ReallocateKeepsReservations(s: State, s': State, k: Key, paid: int)
    requires Reserved(s.channels, s.allocations) && Reallocates(s, s', k, paid)
    ensures Reserved(s'.channels, s'.allocations)
  {
    hide Sum, AmountsOf, SettledOf;
    AllocationUpdate(s.allocations, k, s'.allocations[k]);
  }

  lemma ReallocateKeepsBooks(s: State, s': State, k: Key, paid: int)
    requires Books(s.channels, s.allocations, s.journal) && Reallocates(s, s', k, paid)
    ensures Books(s'.channels, s'.allocations, s'.journal)
  {
    hide Sum, AmountsOf, SettledOf, Total;
    Append(s.journal, Vouchered(k.channel, k.recipient, paid));
    AllocationUpdate(s.allocations, k, s'.allocations[k]);
    forall i
      ensures Balanced(s'.channels, s'.allocations, s'.journal, i)
    {
      assert Balanced(s.channels, s.allocations, s.journal, i);
    }
  }

  lemma ReallocateTelescopes(s: State, s': State, k: Key, paid: int)
    requires Telescoped(s.allocations, s.journal) && Reallocates(s, s', k, paid)
    ensures Telescoped(s'.allocations, s'.journal)
  {
    hide Total, WritesChannel;
    Append(s.journal, Vouchered(k.channel, k.recipient, paid));
    forall x: Key
      ensures Total(s'.journal, VouchersTo(x.channel, x.recipient)) == SettledFor(s'.allocations, x)
    {
      assert Total(s.journal, VouchersTo(x.channel, x.recipient)) == SettledFor(s.allocations, x);
    }
  }

  lemma ReallocateKeepsPace(s: State, s': State, k: Key, paid: int)
    requires Paced(s.channels, s.journal) && Reallocates(s, s', k, paid)
    ensures Paced(s'.channels, s'.journal)
  {
    forall i | i in s'.channels
      ensures Rates.Paced(s'.journal, i, s'.channels[i])
    {
      var e := Vouchered(k.channel, k.recipient, paid);
      if s'.journal == s.journal {
        Rates.SamePeriodSamePace(s.journal, i, s.channels[i], s'.channels[i]);
      } else {
        Rates.OtherEntryKeepsPace(s.journal, i, s.channels[i], s'.channels[i], e);
      }
    }
  }

  lemma ReallocateKeeps(s: State, s': State, k: Key, paid: int)
    requires Sound(s) && Reallocates(s, s', k, paid)
    ensures Kept(s, s')
  {
    hide ChannelsOk, AllocationsOk, JournalOk, Reserved, Books, Telescoped, Paced;
    WriteKeepsChannels(s, s', k.channel);
    WriteKeepsAllocations(s.channels, s'.channels, s.allocations, k, s'.allocations[k]);
    EntryKeepsJournal(s.channels, s'.channels, s.journal, Vouchered(k.channel, k.recipient, paid));
    SurplusGrows(s, s', k.channel);
    ReallocateKeepsReservations(s, s', k, paid);
    ReallocateKeepsBooks(s, s', k, paid);
    ReallocateTelescopes(s, s', k, paid);
    ReallocateKeepsPace(s, s', k, paid);
  }

  lemma AllocateReallocates(s: State, owner: Address, id: u64, recipient: Address, amount: i128)
    requires Allocate(s, owner, id, recipient, amount).Ok? && id <= s.count
    requires ChannelOk(s.env.self, s.world.ledger, s.channels[id])
    requires AllocationsOk(s.channels, s.allocations)
    ensures Reallocates(s, Allocate(s, owner, id, recipient, amount).value.0, Key(id, recipient), 0)
  {}

  lemma AllocateKeeps(s: State, owner: Address, id: u64, recipient: Address, amount: i128)
    requires Sound(s) && Allocate(s, owner, id, recipient, amount).Ok?
    ensures Kept(s, Allocate(s, owner, id, recipient, amount).value.0)
  {
    assert AllocationsOk(s.channels, s.allocations);
    hide Sound, Kept, AllocationsOk, Reallocates;
    ChannelFacts(s, id);
    AllocateReallocates(s, owner, id, recipient, amount);
    ReallocateKeeps(s, Allocate(s, owner, id, recipient, amount).value.0, Key(id, recipient), 0);
  }

  lemma PayOutReallocates(s: State, k: Key, amount: int, penalty: int)
    requires k !in s.settlements && PayOut(s, k, amount, penalty).Ok?
    requires ChannelsOk(s.env.self, s.world.ledger, s.channels, s.count)
    requires AllocationsOk(s.channels, s.allocations)
    requires s.allocations[k].amount <= s.channels[k.channel].reserved
    requires 0 <= penalty && s.allocations[k].settled <= amount && amount + penalty <= s.allocations[k].amount
    ensures Reallocates(s, PayOut(s, k, amount, penalty).value, k, amount - s.allocations[k].settled + penalty)
  {
    hide Transfer;
  }

  lemma PayOutNeeds(s: State, k: Key, amount: int, penalty: int)
    requires PayOut(s, k, amount, penalty).Ok?
    ensures k in s.allocations && k.channel in s.channels
  {
    hide Transfer;
  }

  /** The part of the invariant that is about reservations. */
  lemma Reservations(s: State)
    requires Sound(s)
    ensures ChannelsOk(s.env.self, s.world.ledger, s.channels, s.count)
    ensures AllocationsOk(s.channels, s.allocations) && Reserved(s.channels, s.allocations)
  {
    hide ChannelsOk, AllocationsOk, SettlementsOk, JournalOk, Reserved, Books, Telescoped, Paced;
  }

  lemma PayOutKeeps(s: State, k: Key, amount: int, penalty: int)
    requires Sound(s) && k !in s.settlements && PayOut(s, k, amount, penalty).Ok?
    requires 0 <= penalty && s.allocations[k].settled <= amount && amount + penalty <= s.allocations[k].amount
    ensures Kept(s, PayOut(s, k, amount, penalty).value)
  {
    hide Sound, Kept, Reallocates, AllocationsOk, Reserved, ChannelsOk, PayOut, AmountsOf;
    Reservations(s);
    PayOutNeeds(s, k, amount, penalty);
    AllocationWithinReserved(s.channels, s.allocations, k);
    PayOutReallocates(s, k, amount, penalty);
    ReallocateKeeps(s, PayOut(s, k, amount, penalty).value, k, amount - s.allocations[k].settled + penalty);
  }

  // ---- The dispute protocol ----

  /** What an accepted voucher is known to be. */
  lemma VoucherFacts(s: State, c: Channel, k: Key, sequence: u64, amount: i128, signature: Bytes)
    requires VerifyVoucher(s, c, k, sequence, amount, signature).Ok?
    ensures k in s.allocations && s.allocations[k].settled < amount <= s.allocations[k].amount
  {
    hide Encode;
  }

  lemma CooperativeKeeps(s: State, id: u64, recipient: Address, sequence: u64, amount: i128, signature: Bytes)
    requires Sound(s) && CloseCooperative(s, id, recipient, sequence, amount, signature).Ok?
    ensures Kept(s, CloseCooperative(s, id, recipient, sequence, amount, signature).value.0)
  {
    hide Sound, Kept, Encode;
    VoucherFacts(s, s.channels[id], Key(id, recipient), sequence, amount, signature);
    PayOutKeeps(s, Key(id, recipient), amount, 0);
  }

  /** A settlement may be written or removed as long as it stays within bounds. */
  lemma SettlementKeeps(s: State, k: Key, st: Settlement)
    requires Sound(s)
    ensures Kept(s, s.(settlements := s.settlements - {k}))
    ensures k in s.allocations && SettlementOk(s.world.ledger, st, s.allocations[k]) ==>
              Kept(s, s.(settlements := s.settlements[k := st]))
  {
    hide ChannelsOk, AllocationsOk, JournalOk, Reserved, Books, Telescoped, Paced;
  }

  lemma SettlementFacts(s: State, k: Key)
    requires Sound(s) && k in s.settlements
    ensures k in s.allocations && k.channel in s.channels
    ensures SettlementOk(s.world.ledger, s.settlements[k], s.allocations[k]) && 0 <= s.allocations[k].settled
  {
    hide ChannelsOk, JournalOk, Reserved, Books, Telescoped, Paced;
  }

  lemma UnilateralKeeps(s: State, closer: Address, id: u64, recipient: Address, sequence: u64, amount: i128, signature: Bytes)
    requires Sound(s) && CloseUnilateral(s, closer, id, recipient, sequence, amount, signature).Ok?
    ensures Kept(s, CloseUnilateral(s, closer, id, recipient, sequence, amount, signature).value.0)
  {
    hide Sound, Kept, Encode;
    var k := Key(id, recipient);
    VoucherFacts(s, s.channels[id], k, sequence, amount, signature);
    SettlementKeeps(s, k, CloseUnilateral(s, closer, id, recipient, sequence, amount, signature).value.0.settlements[k]);
  }

  lemma ChallengeKeeps(s: State, id: u64, recipient: Address, sequence: u64, amount: i128, signature: Bytes)
    requires Sound(s) && Challenge(s, id, recipient, sequence, amount, signature).Ok?
    ensures Kept(s, Challenge(s, id, recipient, sequence, amount, signature).value.0)
  {
    hide Sound, Kept, Encode;
    var k := Key(id, recipient);
    VoucherFacts(s, s.channels[id], k, sequence, amount, signature);
    SettlementFacts(s, k);
    SettlementKeeps(s, k, Challenge(s, id, recipient, sequence, amount, signature).value.0.settlements[k]);
  }

  lemma FinalizeKeeps(s: State, id: u64, recipient: Address)
    requires Sound(s) && Finalize(s, id, recipient).Ok?
    ensures Kept(s, Finalize(s, id, recipient).value.0)
  {
    hide Sound;
    var k := Key(id, recipient);
    var s1 := s.(settlements := s.settlements - {k});
    var st := s.settlements[k];
    SettlementFacts(s, k);
    SettlementKeeps(s, k, st);
    PayOutKeeps(s1, k, st.best, Penalty(s.allocations[k].amount, st));
  }

  // ---- Every transaction, every run ----

  lemma OutsideKeeps(s: State, w: World)
    requires Sound(s) && Permitted(s.env.self, s.world, w)
    ensures Kept(s, s.(world := w))
  {}

  lemma ConfigureKeeps(s: State, amm: Option<Address>, oracle: Option<Address>)
    requires Sound(s)
    ensures Kept(s, s.(amm := amm, oracle := oracle))
  {}

  /** The surplus a transaction must leave: no less, but for the shortfalls of a route. */
  ghost predicate SurplusAfter(s: State, op: Op) {
    if CrossRoute(s, op) then PaysShortfalls(s, Apply(s, op), op.route, op.amount, op.dest, op.minReceived, op.recipient)
    else forall t :: Surplus(s, t) <= Surplus(Apply(s, op), t)
  }

  /** A successful payment along a route. */
  ghost predicate CrossRoute(s: State, op: Op) {
    op.OpRoute? && Step(s, op).Ok? && op.id in s.channels && s.channels[op.id].token != op.dest
  }

  lemma RouteStepKeeps(s: State, op: Op)
    requires Sound(s) && op.OpRoute? && Step(s, op).Ok?
    ensures Sound(Apply(s, op)) && SurplusAfter(s, op)
  {
    hide Sound, PayWithRoute, PaysShortfalls;
    RouteDebits(s, op.agent, op.id, op.recipient, op.amount, op.dest, op.route, op.minReceived, op.validUntil);
    if s.channels[op.id].token == op.dest {
      SameAssetRouteKeeps(s, op.agent, op.id, op.recipient, op.amount, op.dest, op.route, op.minReceived, op.validUntil);
    } else {
      RouteKeeps(s, op.agent, op.id, op.recipient, op.amount, op.dest, op.route, op.minReceived, op.validUntil);
    }
  }

  lemma PlainStepKeeps(s: State, op: Op)
    requires Sound(s) && !op.OpRoute? && Step(s, op).Ok?
    ensures Kept(s, Apply(s, op))
  {
    hide Sound, Kept;
    match op
    case OpOpen(o, a, t, d, l, p) => OpenKeeps(s, o, a, t, d, l, p);
    case OpPay(a, id, r, n) => PayKeeps(s, a, id, r, n);
    case OpConvert(a, id, r, n, d, m) => ConvertKeeps(s, a, id, r, n, d, m);
    case OpTopUp(o, id, n) => TopUpKeeps(s, o, id, n);
    case OpClose(o, id) => CloseKeeps(s, o, id);
    case OpWithdraw(o, id) => WithdrawKeeps(s, o, id);
    case OpEnable(o, id, k, d) => EnableKeeps(s, o, id, k, d);
    case OpAllocate(o, id, r, n) => AllocateKeeps(s, o, id, r, n);
    case OpCooperative(id, r, q, n, g) => CooperativeKeeps(s, id, r, q, n, g);
    case OpUnilateral(c, id, r, q, n, g) => UnilateralKeeps(s, c, id, r, q, n, g);
    case OpChallenge(id, r, q, n, g) => ChallengeKeeps(s, id, r, q, n, g);
    case OpFinalize(id, r) => FinalizeKeeps(s, id, r);
    case OpConfigure(amm, oracle) => ConfigureKeeps(s, amm, oracle);
    case OpOutside(w) => OutsideKeeps(s, w);
  }

  /** Every transaction, successful or reverted and whatever venues answer, keeps
      the books, and the surplus of a token shrinks by the shortfalls of a route
      and by nothing else. */
  lemma StepKeeps(s: State, op: Op)
    requires Sound(s)
    ensures Sound(Apply(s, op)) && SurplusAfter(s, op)
  {
    hide Sound, Step, PaysShortfalls, Surplus;
    if Step(s, op).Ok? {
      if op.OpRoute? {
        RouteStepKeeps(s, op);
      } else {
        PlainStepKeeps(s, op);
      }
    }
  }

  /** The same, for an entry point called directly. */
  lemma OutcomeKeeps<V>(s: State, op: Op, outcome: Result<(State, V)>)
    requires Sound(s) && Step(s, op) == Post(outcome)
    ensures Sound(After(s, outcome))
  {
    hide Sound, Step;
    StepKeeps(s, op);
  }

  lemma {:induction false} RunKeeps(s: State, ops: seq<Op>)
    requires Sound(s)
    ensures Sound(Run(s, ops))
    decreases |ops|
  {
    hide Sound, Apply;
    if ops != [] {
      StepKeeps(s, ops[0]);
      RunKeeps(Apply(s, ops[0]), ops[1..]);
    }
  }

  lemma FreshIsFine(s: State)
    requires Fresh(s)
    ensures Inv(s)
  {
    assert forall id :: SettledOf(s.allocations, id) == map[];
    assert forall t :: CollateralIn(s.channels, t) == map[];
  }

  /** In every state reachable from deployment, whatever venues answer, the books
      hold. */
  lemma ReachableIsFine(s: State, ops: seq<Op>)
    requires Fresh(s)
    ensures Sound(Run(s, ops))
  {
    FreshIsFine(s);
    RunKeeps(s, ops);
  }
}
