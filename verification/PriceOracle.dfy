/** The single-admin price feed that bounds every conversion from below. */
module Oracle {
  import opened Base
  import opened Tokens
  import opened Amm

  const PRICE_SCALE: int := 10_000_000
  const DEFAULT_MAX_AGE: u32 := 60

  datatype PriceEntry = PriceEntry(price: Positive, ledger: u32)

  datatype Feed = Feed(prices: map<Pair, PriceEntry>, maxAge: u32)

  /** Ledgers since publication, saturating at zero. */
  function Age(now: int, entry: PriceEntry): int {
    if now < entry.ledger then 0 else now - entry.ledger
  }

  /** An answer is either the identity price or a published one that is fresh. */
  function GetPrice(feed: Feed, now: int, base: Address, quote: Address): (r: Result<int>)
    ensures r.Ok? <==>
            base == quote
            || (Pair(base, quote) in feed.prices && now - feed.prices[Pair(base, quote)].ledger <= feed.maxAge)
    ensures r.Ok? ==> 0 < r.value <= I128_MAX
    ensures r.Ok? ==> r.value == if base == quote then 10_000_000 else feed.prices[Pair(base, quote)].price
  {
    if base == quote then Ok(PRICE_SCALE)
    else
      var _ :- Need(Pair(base, quote) in feed.prices, PriceUnavailable);
      var entry := feed.prices[Pair(base, quote)];
      var _ :- Need(Age(now, entry) <= feed.maxAge, PriceStale);
      Ok(entry.price)
  }

  class PriceOracle {
    const host: Host
    var admin: Option<Address>
    var prices: map<Pair, PriceEntry>
    var maxAge: u32

    ghost function Contents(): Feed
      reads this
    {
      Feed(prices, maxAge)
    }

    constructor (host: Host)
      ensures this.host == host && admin == None && Contents() == Feed(map[], DEFAULT_MAX_AGE)
    {
      this.host, admin, prices, maxAge := host, None, map[], DEFAULT_MAX_AGE;
    }

    method Initialize(caller: Address) returns (r: Result<()>)
      modifies this
      ensures r.Ok? <==> old(admin).None?
      ensures r.Ok? ==> admin == Some(caller) && Contents() == old(Contents()).(maxAge := DEFAULT_MAX_AGE)
      ensures r.Err? ==> admin == old(admin) && Contents() == old(Contents())
    {
      if admin.Some? {
        return Err(AlreadyInitialized);
      }
      admin, maxAge := Some(caller), DEFAULT_MAX_AGE;
      return Ok(());
    }

    /** A published price is readable at once, and unreadable `maxAge + 1` ledgers later. */
    method SetPrice(caller: Address, base: Address, quote: Address, price: i128) returns (r: Result<()>)
      modifies this`prices
      ensures r.Ok? <==> admin == Some(caller) && price > 0
      ensures r.Err? ==> prices == old(prices)
      ensures r.Ok? ==> prices == old(prices)[Pair(base, quote) := PriceEntry(price, host.ledger)]
      ensures r.Ok? && base != quote ==>
                forall later | host.ledger <= later ::
                  GetPrice(Contents(), later, base, quote)
                  == if later <= host.ledger + maxAge then Ok(price) else Err(PriceStale)
    {
      if admin != Some(caller) {
        return Err(NotAdmin);
      }
      if price <= 0 {
        return Err(AmountNotPositive);
      }
      prices := prices[Pair(base, quote) := PriceEntry(price, host.ledger)];
      return Ok(());
    }

    method SetMaxAge(caller: Address, age: u32) returns (r: Result<()>)
      modifies this`maxAge
      ensures r.Ok? <==> admin == Some(caller)
      ensures maxAge == if r.Ok? then age else old(maxAge)
    {
      if admin != Some(caller) {
        return Err(NotAdmin);
      }
      maxAge := age;
      return Ok(());
    }

    method Price(base: Address, quote: Address) returns (r: Result<int>)
      ensures r == GetPrice(Contents(), host.ledger, base, quote)
    {
      if base == quote {
        return Ok(PRICE_SCALE);
      }
      if Pair(base, quote) !in prices {
        return Err(PriceUnavailable);
      }
      var entry := prices[Pair(base, quote)];
      var age := if host.ledger < entry.ledger then 0 else host.ledger - entry.ledger;
      if age > maxAge {
        return Err(PriceStale);
      }
      return Ok(entry.price);
    }
  }
}
