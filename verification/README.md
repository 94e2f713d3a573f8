# Agent payment rails: a verified model of the contracts

A Dafny model of the Soroban contracts that hold and move money for agents,
with the properties they promise proved over every run. `dafny verify
dfyconfig.toml` checks the whole project.

Each contract comes in two layers. A *model* gives every entry point as a
function from a state to the state it leaves and the value it returns, or the
reason it reverts; runs are arbitrary sequences of entry points, time passing
and other parties' transactions. A *class* is the contract as it is written:
stored maps and counters updated in place, loops, early returns, balances moved
first and rolled back on a later panic. Every method of a class is proved to
have exactly the effect of its function, so the theorems about runs are
theorems about the class. The *effects* say of each entry point, in the caller's
terms, when it goes through, which balances it moves and what it stores. A panic or a returned error leaves the state as it
was; the ledger number never decreases; arithmetic on `u32`, `u64` and `i128`
reverts on overflow, as the release profile has overflow checks on
(contracts/Cargo.toml:21).

| files | contract | what is hard about it |
|---|---|---|
| `ChannelModel`, `ChannelJournal`, `ChannelRates`, `ChannelRoutes`, `ChannelInvariant`, `ChannelDisputes`, `ChannelCustody`, `ChannelEffects`, `ChannelKeys`, `ChannelTheorems`, `ChannelScenario`, `VenueScenario`, `PaymentChannel` | payment channel | one deposit drained by on-chain, converted, multi-hop and off-chain payments and a dispute protocol: custody, conservation, pace, non-interference, commuting payouts |
| `Voucher` | voucher preimage | the 151-byte encoding and its inverse |
| `AmmSwap`, `PriceOracle` | swap venue, price feed | the venue routes run against, the source of the 95% floor |
| `RateLimiter` | rate limiter | a ring of buckets that stands for a payment log |
| `GovernanceModel`, `GovernanceProofs`, `GovernanceTheorems`, `GovernanceEffects`, `GovernanceLaws`, `Governance` | governance | k-of-n quorum, timelock, expiry and self-rotation |
| `SubscriptionModel`, `SubscriptionProofs`, `SubscriptionEffects`, `SubscriptionTheorems`, `Subscription` | subscriptions | catch-up arithmetic in chunks of 32 periods |
| `CircuitBreakerModel`, `CircuitBreakerEffects`, `CircuitBreakerProofs`, `CircuitBreaker` | circuit breaker | quorum over a sliding window |
| `EscrowModel`, `EscrowProofs`, `EscrowEffects`, `EscrowTheorems`, `Escrow` | job escrow | exactly-once payout, disputes |
| `BountyModel`, `BountyProofs`, `BountyEffects`, `BountyTheorems`, `BugBounty` | bug bounties | four maps and counters that must agree |
| `Base`, `Arithmetic`, `MapSum`, `Tokens` | shared | results, machine integers, sums over maps, token balances and the host |

`journal` and `log` fields record history for the statements only; no entry
point reads them.

## Where the code and its documentation disagree

The model follows the code.

- Governance promises that expired proposals can never be executed
  (contracts/governance/src/lib.rs:14-15). Expiry is recomputed from the time
  to live in force. With room for three more proposals, every expired proposal
  whose action is possible at all is executed on some further run:
  `ExpiryIsFinalIff`, `RaisedTtlRevivesIff`, `ExpiredProposalRevives`.
- Governance `execute` looks for `Executed` only. Cancelling is final before
  quorum; after it, lacking votes or time is not final, because the owners can
  still change threshold and time to live: `EarlyCancelIsFinal`,
  `CancelIsFinalIff`, `CancelledIsExecutedIff`.
- A time to live that overflows every deadline is accepted, at deployment and by
  proposal, and ends self-government for good: `InitialTtlStallsIff`,
  `NewTtlFreezesIff`, `OversizedTtlFreezes`, `StallsIff`.
- The voucher design note keeps `settled <= allocation`
  (docs/payment-voucher-design.md:232). A payout zeroes the allocation and keeps
  the cumulative `settled`, so every payout breaks the bound and a later
  allocation pays only above it: `BoundBrokenIff`, `AllocationClaimableIff`,
  `AllocationCanBeDead`.
- The window of a unilateral close is to keep a payer from paying less than it
  owes (contracts/payment_channel/src/lib.rs:1395-1396). It does if the voucher
  key is kept until the recipient has submitted; but `enable_vouchers` replaces
  the key while a close is open, and old vouchers then verify no more:
  `KeptKeyProtects`, `LostKeyForfeits`, `SubmissionCountsIff`.
- `enable_vouchers` may change the dispute window while a close is open. The
  720-ledger minimum holds on every run (`NoEarlyFinalize`), but a window can be
  made to overflow and block the close (`WindowCanBeMadeEndless`).
- Subscriptions promise that an unaffordable period fails alone
  (contracts/subscription/src/lib.rs:41-43). A collection charges all due
  periods, up to 32, in one transfer, all or nothing: `CollectSucceedsIff`.
  `cancel` promises not to forgive elapsed periods and forgives those beyond
  32: `CancelForgivesBeyondTheCap`. The payer can always cancel, says line 18;
  `cancel` charges first, so one who cannot cover what is due cannot:
  `CancelSucceedsIff`.
- The circuit breaker counts distinct nodes only if its list has no repeated
  one, which nothing checks: `CountIsCardinalityIff`, `OneNodeCanPauseAlone`.
- Escrow refunds work that was delivered, once the deadline is past:
  `DeliveredWorkIsRefundableIff`.
- The collateral check of a payment is to keep a channel from paying out of
  another owner's collateral (contracts/payment_channel/src/lib.rs:382-387). A
  route's venues are the agent's choice and their reports are taken on trust, so
  a venue that reports more than it delivers makes the next hop spend collateral
  of other channels. Custody holds exactly while each shortfall is within what
  the contract holds beyond its collateral: `CustodyOnRunIff`,
  `ReportsCanCostCollateral`. All other books hold whatever venues answer:
  `ReachableIsFine`.
- The rate limiter records negative amounts, and these can lift the limit, exactly
  when the ring still counts more credit than spend from before the window:
  `WindowCanExceedIff`, `CreditsLiftTheLimit`.

Two sources do not compile as they stand and are read as follows. The rate
limiter's bucket counts are undeclared; the number of buckets is a parameter and
the ring covers 720 ledgers. Subscription line 125 names an unbound
`max_periods`, read as the subscription's own.

## Model

| member | source | states |
|---|---|---|
| `ChannelTheorems.AllocationsAreBacked` | contracts/payment_channel/src/lib.rs:1246-1253 | on every run `reserved` is the sum of the recipients' allocations, lies between 0 and the collateral, and every close in flight has settled < first <= best <= its allocation: what the code says holds by construction |
| `ChannelCustody.CollateralIsHeld` | contracts/payment_channel/src/lib.rs:286-291 | on every run whose routes are covered where they start, the contract holds of each token at least the collateral of all channels in it together |
| `ChannelCustody.CustodyOnRunIff` | contracts/payment_channel/src/lib.rs:1877-1912 | on every run, whatever venues answer: the contract always holds the collateral exactly when each route is covered, that is, what a venue in the middle reports but does not deliver is within what the contract holds of that token beyond its collateral |
| `ChannelCustody.StepKeepsCustodyIff` | contracts/payment_channel/src/lib.rs:1877-1912 | a transaction keeps custody exactly when it is not a route with a shortfall beyond the surplus; no other entry point can break it |
| `ChannelCustody.PassingInFullIsCovered` | contracts/amm_swap/src/lib.rs:135-166 | a route whose middle venues deliver what they report is covered, and so is every route through AmmSwap venues |
| `VenueScenario.ReportsCanCostCollateral` | contracts/payment_channel/src/lib.rs:1877-1912 | a deployment and a run of two deposits and one routed payment after which the contract holds less of a token than the one channel's collateral in it: the report of the agent's venue is taken on trust |
| `ChannelTheorems.DepositsAreConserved` | contracts/payment_channel/src/lib.rs:2061-2091 | per channel on every run: deposits and top-ups = collateral + total spent + returned to the owner; total spent = on-chain debits + settled vouchers; the transfers to a recipient add up to its `settled` |
| `ChannelTheorems.SpendingIsPaced` | contracts/payment_channel/src/lib.rs:368-387 | on every run the on-chain debits of any period's length of consecutive ledgers are at most twice the limit, and since the opening at most the limit times the periods begun |
| `ChannelTheorems.StoredAmountsFit` | contracts/payment_channel/src/lib.rs:120-127 | in every reachable state each stored amount of a channel, its allocations and its closes is a non-negative i128 within its bound, so additions without a check cannot overflow |
| `ChannelTheorems.NoEarlyFinalize` | contracts/payment_channel/src/lib.rs:1519-1533 | no run, whatever `enable_vouchers` does meanwhile, finalizes a close within 720 ledgers of its `close_unilateral` |
| `ChannelTheorems.OrderDoesNotMatter` | contracts/payment_channel/src/lib.rs:1466-1515 | the same challenges in any order or number lead to the same best voucher and the same payout |
| `ChannelTheorems.BatchTakesLargest` | contracts/payment_channel/src/voucher.rs:115-125 | a batch of challenges ends at the largest amount that was good when submitted: no challenge beats it and some challenge attains it |
| `ChannelTheorems.UnchallengedEqualsCooperative` | contracts/payment_channel/src/lib.rs:1345-1388 | an unchallenged unilateral close, finalized later, leaves the same state and pays the same as a cooperative close with that voucher at that ledger |
| `ChannelTheorems.FinalizesCommute` | contracts/payment_channel/src/lib.rs:1519-1578 | while custody holds, two finalizations in either order succeed alike and give the same channels, allocations, settlements, balances and payouts |
| `ChannelTheorems.PayOutsCommute` | contracts/payment_channel/src/lib.rs:2061-2091 | two payouts the channel and the contract can cover together succeed in either order with the same result |
| `ChannelTheorems.ClosesAreCovered` | contracts/payment_channel/src/lib.rs:2069-2075 | while custody holds, any two closes in flight are covered together, by the shared channel's collateral and by the contract's balance |
| `ChannelTheorems.AllocationClaimableIff` | contracts/payment_channel/src/lib.rs:2034-2041 | for a key that can sign, some voucher is accepted exactly when the allocation exceeds what was settled before |
| `ChannelTheorems.FreshAllocationCanBeDead` | contracts/payment_channel/src/lib.rs:2034-2041 | an allocation not above what was settled pays nothing: no voucher closes it, cooperatively or not |
| `ChannelTheorems.BoundBrokenIff` | contracts/payment_channel/src/lib.rs:2086-2087 | settled <= allocation, once true of a recipient, is broken by each successful payout to it and by nothing else |
| `ChannelScenario.SettledOutlivesAllocation` | contracts/payment_channel/src/lib.rs:1345-1388 | from any deployment where the deal is feasible, a run settles the whole allocation, allocates again and ends with settled = the old allocation |
| `ChannelScenario.AllocationCanBeDead` | contracts/payment_channel/src/lib.rs:2086-2087 | a deployment and a run that end with 50 allocated and 100 settled, so that no voucher for the 50 is accepted |
| `ChannelTheorems.PaySucceedsIff` | contracts/payment_channel/src/lib.rs:337-419 | while custody holds, exactly when a payment goes through: custody makes it payable, so only who asks, the period's limit, the free collateral and the receiver's balance decide |
| `ChannelEffects.OpenDoes` | contracts/payment_channel/src/lib.rs:249-326 | exactly when an opening goes through; it moves exactly the deposit from owner to contract and stores agent, owner, token, limit, period, deposit and the 17280-ledger window as given, under a new number |
| `ChannelEffects.PayDoes` | contracts/payment_channel/src/lib.rs:337-419 | a payment moves exactly `amount` of the channel's token from the contract to the recipient and no other balance, and books it in period, total and collateral; periods are 1, 720 or 17280 ledgers |
| `ChannelEffects.SameTokenConversionDoes` | contracts/payment_channel/src/lib.rs:476-583 | a conversion to the channel's own token goes through and does exactly as a payment, for a minimum within the amount |
| `ChannelEffects.SameTokenRouteDoes` | contracts/payment_channel/src/lib.rs:597-705 | a route to it likewise, if empty and not past its ledger |
| `ChannelEffects.ConversionBooks` | contracts/payment_channel/src/lib.rs:476-583 | who may convert, and that the channel books exactly a spend of `amount` |
| `ChannelEffects.RouteBooks` | contracts/payment_channel/src/lib.rs:597-705 | who may route and until when, and that the channel books exactly a spend of `amount` |
| `ChannelEffects.FloorIsNinetyFivePercent` | contracts/payment_channel/src/lib.rs:1920-1948 | exactly the minima at or above the floor at a fresh price pass, and the floor is 95% of the fair value, from below, up to its two roundings |
| `ChannelEffects.TopUpDoes` | contracts/payment_channel/src/lib.rs:708-757 | exactly when a top-up goes through; it moves exactly `amount` from owner to contract and into the collateral |
| `ChannelEffects.CloseDoes` | contracts/payment_channel/src/lib.rs:760-813 | exactly when a close goes through; it sends the owner exactly what nobody has reserved, leaves collateral = reserved and deactivates; nothing else changes |
| `ChannelEffects.WithdrawDoes` | contracts/payment_channel/src/lib.rs:1307-1334 | exactly when a withdrawal goes through; it reports and sends exactly that, and nothing else changes |
| `ChannelEffects.EnableDoes` | contracts/payment_channel/src/lib.rs:1212-1244 | exactly when enabling goes through; it sets key and window as given and changes nothing else |
| `ChannelEffects.AllocateDoes` | contracts/payment_channel/src/lib.rs:1256-1301 | exactly when an allocation goes through; it adds `amount` to this recipient's allocation and to the reservation and changes nothing else |
| `ChannelEffects.PayOutDoes` | contracts/payment_channel/src/lib.rs:2061-2091 | a payout moves exactly the difference from contract to recipient, releases the whole reservation, settles the total, and changes nothing else |
| `ChannelEffects.CooperativeDoes` | contracts/payment_channel/src/lib.rs:1345-1388 | a cooperative close settles exactly the voucher's amount |
| `ChannelEffects.UnilateralDoes` | contracts/payment_channel/src/lib.rs:1397-1456 | exactly when a unilateral close goes through; it moves no money and records the claim, the ledger and whether the closer is the payer's side, the owner or the agent |
| `ChannelEffects.ChallengeDoes` | contracts/payment_channel/src/lib.rs:1466-1515 | exactly when a challenge goes through; it changes only the best claim |
| `ChannelEffects.FinalizeDoes` | contracts/payment_channel/src/lib.rs:1519-1578 | a finalization settles the best voucher and, if the payer's side opened with less, as much again as it understated, up to the allocation |
| `ChannelKeys.RotationRepudiates` | contracts/payment_channel/src/lib.rs:1212-1244 | after a key rotation, on every run until the next, only signatures of the new key over the exact claim verify |
| `ChannelKeys.RunCarries` | contracts/payment_channel/src/lib.rs:72-118 | on no run does a channel change agent, owner, token, limit or period, or reopen; key and window change only through enable_vouchers |
| `ChannelKeys.VerifiesIff` | contracts/payment_channel/src/lib.rs:2010-2054 | a voucher is accepted exactly when 0 < amount, settled < amount <= allocation and the key in force verifies the signature over the preimage of the claim, byte by byte as laid out |
| `ChannelKeys.SubmissionCountsIff` | contracts/payment_channel/src/lib.rs:1466-1515 | on any run with a close in flight, submitting a voucher within the allocation secures its amount exactly when as much is already in, or the key in force verifies it and the window is open |
| `ChannelKeys.KeptKeyProtects` | contracts/payment_channel/src/lib.rs:1390-1396 | if the key is kept until the recipient's voucher is submitted within the window, the close pays at least that voucher, whatever it was opened with and whatever else happens |
| `ChannelScenario.KeyCanBeLost` | contracts/payment_channel/src/lib.rs:1222-1244 | from any deployment where the deal is feasible, a run opens a stale close while the owed voucher is good, the owner then replaces the key, and on every further run the close pays the stale amount |
| `ChannelScenario.TenForAHundred` | contracts/payment_channel/src/lib.rs:1222-1244 | such a deployment exists: ten paid where a hundred were signed for |
| `ChannelKeys.LostKeyForfeits` | contracts/payment_channel/src/lib.rs:1222-1244 | if the owner replaces the key while a close is open by one that verifies nothing, on every run until the next change the close keeps its claim and pays it: the stale amount |
| `ChannelKeys.EndlessWindowStays` | contracts/payment_channel/src/lib.rs:1495-1533 | while a close's window overflows, no run without another enable_vouchers on the channel challenges or finalizes it |
| `ChannelKeys.WindowCanBeMadeEndless` | contracts/payment_channel/src/lib.rs:1222-1244 | the owner can set such a window while a close is in flight: from then on, on every run until the next change, the close is stuck |
| `ChannelDisputes.PenaltyBounds` | contracts/payment_channel/src/lib.rs:1543-1564 | best <= best + penalty <= allocation, and there is no penalty for the recipient's own close or an honest claim |
| `ChannelDisputes.ChallengedUnderstatementNeverPays` | contracts/payment_channel/src/lib.rs:1543-1564 | among closes that end at the same best voucher the owner's remainder never grows with the understatement, and a challenged one costs something exactly when something is left to reclaim |
| `ChannelDisputes.WindowsPartition` | contracts/payment_channel/src/lib.rs:1495-1533 | challenge and finalize windows never overlap and cover every ledger exactly when the window's end is a u32; outside each window the call is refused |
| `ChannelDisputes.FinalizeSucceeds` | contracts/payment_channel/src/lib.rs:1519-1578 | while custody holds `finalize` succeeds exactly when the window is over and the sums fit an i128; it never fails for nothing owed or too little collateral, and moves exactly the payout less what was settled |
| `ChannelDisputes.RunSpares` | contracts/payment_channel/src/lib.rs:1256-1334 | any interleaving of payments, withdrawals, closing the channel and other recipients' allocations and closes leaves this recipient's allocation, close and payout unchanged |
| `ChannelDisputes.StepTakesBest` | contracts/payment_channel/src/lib.rs:1466-1515 | short of its own finalization, each transaction changes a close only by taking the larger of its best and a good challenge's amount |
| `ChannelDisputes.CloseTakesBest` | contracts/payment_channel/src/lib.rs:1397-1578 | over any run a close ends at the largest voucher that was good when submitted, and would pay that plus the penalty against its opening claim |
| `ChannelDisputes.ChallengesAreBounded` | contracts/payment_channel/src/voucher.rs:115-125 | each accepted challenge raises the best, so there are at most allocation - opening claim of them |
| `ChannelScenario.StaleCloseIsPunished` | contracts/payment_channel/src/lib.rs:1397-1578 | from any deployment where the deal is feasible, opening, allocating, a stale close by anyone, a challenge, the wait and the finalization all succeed, and pay min(owed + understatement, allocation) if the owner or the agent closed and exactly what was owed if anyone else did, the recipient included |
| `ChannelInvariant.StepKeeps` | contracts/payment_channel/src/lib.rs:249-813 | every entry point, and anything outside, keeps the books, whatever venues answer, and shrinks the surplus of a token by the shortfalls of a route and by nothing else |
| `ChannelInvariant.RunKeeps` | contracts/payment_channel/src/lib.rs:249-1578 | the books survive every run, whatever venues answer |
| `ChannelInvariant.ReachableIsFine` | contracts/payment_channel/src/lib.rs:249-1578 | the books hold in every state reachable from deployment, whatever venues answer |
| `ChannelInvariant.OpenKeeps` | contracts/payment_channel/src/lib.rs:249-326 | opening keeps reservations, conservation and pace, and shrinks no surplus |
| `ChannelInvariant.PayKeeps` | contracts/payment_channel/src/lib.rs:337-419 | an on-chain payment keeps them |
| `ChannelInvariant.ConvertKeeps` | contracts/payment_channel/src/lib.rs:476-583 | a converted payment keeps them, whatever the venue answers |
| `ChannelInvariant.RouteKeeps` | contracts/payment_channel/src/lib.rs:597-705 | a multi-hop payment keeps the books whatever its venues answer, and changes the surplus of each token by exactly what its venues reported but did not deliver |
| `ChannelInvariant.TopUpKeeps` | contracts/payment_channel/src/lib.rs:708-757 | a top-up keeps them |
| `ChannelInvariant.CloseKeeps` | contracts/payment_channel/src/lib.rs:760-813 | closing a channel keeps them |
| `ChannelInvariant.WithdrawKeeps` | contracts/payment_channel/src/lib.rs:1307-1334 | withdrawing free collateral keeps them |
| `ChannelInvariant.EnableKeeps` | contracts/payment_channel/src/lib.rs:1212-1244 | enabling vouchers keeps them, and with them the 720-ledger minimum |
| `ChannelInvariant.AllocateKeeps` | contracts/payment_channel/src/lib.rs:1256-1301 | an allocation keeps them |
| `ChannelInvariant.PayOutKeeps` | contracts/payment_channel/src/lib.rs:2061-2091 | any payout within the allocation keeps them |
| `ChannelInvariant.CooperativeKeeps` | contracts/payment_channel/src/lib.rs:1345-1388 | a cooperative close keeps them |
| `ChannelInvariant.UnilateralKeeps` | contracts/payment_channel/src/lib.rs:1397-1456 | a unilateral close keeps them |
| `ChannelInvariant.ChallengeKeeps` | contracts/payment_channel/src/lib.rs:1466-1515 | a challenge keeps them |
| `ChannelInvariant.FinalizeKeeps` | contracts/payment_channel/src/lib.rs:1519-1578 | a finalization keeps them |
| `ChannelRates.PaymentKeepsPace` | contracts/payment_channel/src/lib.rs:368-387 | rolling the period and debiting within the limit keeps both spending bounds |
| `ChannelRates.PaceBounds` | contracts/payment_channel/src/lib.rs:2093-2099 | what the period bookkeeping means for any window of one period's length and since the opening |
| `ChannelRoutes.RouteAccepted` | contracts/payment_channel/src/lib.rs:1839-1873 | route validation accepts exactly the simple token paths of 1 to 4 hops from the channel's token to the destination whose hops avoid this contract and have no negative minimum |
| `ChannelRoutes.HopsMove` | contracts/payment_channel/src/lib.rs:1877-1912 | whatever its venues answer, an executed route costs the contract the amount of the first token and of each middle token what was reported less what was delivered, gives the recipient what the last venue delivers, and reports at least both minimums; nobody but the venues sees anything else move |
| `ChannelRoutes.RouteDelivers` | contracts/payment_channel/src/lib.rs:597-705 | a successful cross-asset route follows a simple path and reports at least max(min_received, last min_out) and 95% of a fresh price; if its venues deliver in full, the recipient has that and the contract's balance of each token in between is unchanged, and otherwise it is out exactly the shortfalls |
| `ChannelRoutes.AmmSwapsDeliverInFull` | contracts/amm_swap/src/lib.rs:135-166 | AmmSwap venues deliver what they report |
| `ChannelRoutes.ConversionDelivers` | contracts/payment_channel/src/lib.rs:1786-1826 | a one-venue conversion debits exactly the amount and gives the recipient what the venue delivers, asked for at least 95% of a fresh price; an AmmSwap delivers at least the caller's minimum |
| `ChannelRoutes.FloorAllowsFivePercent` | contracts/payment_channel/src/lib.rs:1920-1948 | an output at or above the floor is within the two roundings of 95% of the fair value |
| `Voucher.DecodeInvertsEncode` | contracts/payment_channel/src/voucher.rs:27-43 | a decoder at the fixed offsets recovers every field of a preimage |
| `Voucher.EncodeInvertsDecode` | contracts/payment_channel/src/voucher.rs:27-43 | and nothing else decodes: every accepted byte string is the preimage of what is read |
| `Voucher.PreimageInjective` | contracts/payment_channel/src/voucher.rs:70-88 | equal preimages mean equal network, contract digest, recipient digest, channel, sequence and amount |
| `Voucher.Preimage` | contracts/payment_channel/src/voucher.rs:70-88 | appending to the buffer gives 151 bytes: the tag, the network, this contract's digest, the recipient's digest, big-endian channel and sequence and the two's-complement amount, each at its offset |
| `Voucher.EncodeIsThePreimage` | contracts/payment_channel/src/voucher.rs:27-43 | the encoding has exactly that layout, and nothing else has |
| `PaymentChannels.PaymentChannel.SetAmm` | contracts/payment_channel/src/lib.rs:1068-1112 | an approved call wires the venue and changes nothing else, a refused one nothing |
| `PaymentChannels.PaymentChannel.SetPriceOracle` | contracts/payment_channel/src/lib.rs:997-1043 | an approved call wires the feed and changes nothing else, a refused one nothing |
| `PaymentChannels.PaymentChannel.OpenChannel` | contracts/payment_channel/src/lib.rs:249-326 | opens with the deposit as collateral; the new storage, balances and answer are exactly the transition's, a refusal changes nothing, and the invariant is kept |
| `PaymentChannels.PaymentChannel.Pay` | contracts/payment_channel/src/lib.rs:337-419 | pays within limit and free collateral; the new storage, balances and answer are exactly the transition's, a refusal changes nothing, and the invariant is kept |
| `PaymentChannels.PaymentChannel.PayWithConversion` | contracts/payment_channel/src/lib.rs:476-583 | pays through the configured venue; the new storage, balances and answer are exactly the transition's, a refusal changes nothing, and the invariant is kept |
| `PaymentChannels.PaymentChannel.PayWithRoute` | contracts/payment_channel/src/lib.rs:597-705 | pays through a validated route; the new storage, balances and answer are exactly the transition's, a refusal changes nothing, and the invariant is kept |
| `PaymentChannels.PaymentChannel.CheckRoute` | contracts/payment_channel/src/lib.rs:1839-1873 | the validating loop over hops with its list of seen tokens decides as the recursive check |
| `PaymentChannels.PaymentChannel.ExecuteHops` | contracts/payment_channel/src/lib.rs:1877-1912 | the executing loop over hops moves what the recursive execution moves |
| `PaymentChannels.PaymentChannel.ExecuteRoute` | contracts/payment_channel/src/lib.rs:1830-1918 | validation, floor, hops and final minimum in this order |
| `PaymentChannels.PaymentChannel.ExecuteConversion` | contracts/payment_channel/src/lib.rs:1786-1826 | floor, then one swap |
| `PaymentChannels.PaymentChannel.RequireOracleFloor` | contracts/payment_channel/src/lib.rs:1920-1948 | refuses a minimum below the feed's floor, a stale price, or no feed |
| `PaymentChannels.PaymentChannel.TopUp` | contracts/payment_channel/src/lib.rs:708-757 | adds collateral to an active channel; the new storage, balances and answer are exactly the transition's, a refusal changes nothing, and the invariant is kept |
| `PaymentChannels.PaymentChannel.CloseChannel` | contracts/payment_channel/src/lib.rs:760-813 | deactivates and returns the free collateral; the new storage, balances and answer are exactly the transition's, a refusal changes nothing, and the invariant is kept |
| `PaymentChannels.PaymentChannel.WithdrawFree` | contracts/payment_channel/src/lib.rs:1307-1334 | returns the free collateral; the new storage, balances and answer are exactly the transition's, a refusal changes nothing, and the invariant is kept |
| `PaymentChannels.PaymentChannel.EnableVouchers` | contracts/payment_channel/src/lib.rs:1212-1244 | sets key and window; the new storage, balances and answer are exactly the transition's, a refusal changes nothing, and the invariant is kept |
| `PaymentChannels.PaymentChannel.Allocate` | contracts/payment_channel/src/lib.rs:1256-1301 | adds to a reservation out of free collateral; the new storage, balances and answer are exactly the transition's, a refusal changes nothing, and the invariant is kept |
| `PaymentChannels.PaymentChannel.VerifyVoucher` | contracts/payment_channel/src/lib.rs:2010-2054 | checks key, sign, allocation, cumulative bounds and signature, in that order |
| `PaymentChannels.PaymentChannel.PayOut` | contracts/payment_channel/src/lib.rs:2061-2091 | pays the difference plus penalty, releases the whole reservation, rolls back on overflow |
| `PaymentChannels.PaymentChannel.CloseCooperative` | contracts/payment_channel/src/lib.rs:1345-1388 | settles at once; the new storage, balances and answer are exactly the transition's, a refusal changes nothing, and the invariant is kept |
| `PaymentChannels.PaymentChannel.CloseUnilateral` | contracts/payment_channel/src/lib.rs:1397-1456 | opens a close; the new storage, balances and answer are exactly the transition's, a refusal changes nothing, and the invariant is kept |
| `PaymentChannels.PaymentChannel.Challenge` | contracts/payment_channel/src/lib.rs:1466-1515 | takes a larger voucher while the window is open; the new storage, balances and answer are exactly the transition's, a refusal changes nothing, and the invariant is kept |
| `PaymentChannels.PaymentChannel.Finalize` | contracts/payment_channel/src/lib.rs:1519-1578 | pays the best voucher and the penalty after the window; the new storage, balances and answer are exactly the transition's, a refusal changes nothing, and the invariant is kept |
| `Amm.Quote` | contracts/amm_swap/src/lib.rs:113-125 | a quote is given exactly for a positive amount, a configured pair and a product that fits an i128, and is that product divided and rounded down |
| `Amm.Swap` | contracts/amm_swap/src/lib.rs:135-166 | a swap pays exactly the quoted amount out of the venue, never below the minimum |
| `Amm.RoundTripNeverProfits` | contracts/amm_swap/src/lib.rs:113-125 | rates that multiply to at most one leave nothing to gain from swapping there and back |
| `Amm.AmmSwap.SetRate` | contracts/amm_swap/src/lib.rs:93-104 | only the admin sets rates, only positive ones, one pair at a time |
| `Amm.AmmSwap.ExecuteSwap` | contracts/amm_swap/src/lib.rs:135-166 | the swap on stored rates and balances, refusals changing nothing |
| `Oracle.GetPrice` | contracts/price_oracle/src/lib.rs:128-136 | answers exactly for the identity pair and for a published price no older than the maximum age |
| `Oracle.PriceOracle.SetPrice` | contracts/price_oracle/src/lib.rs:101-121 | a published price is readable until exactly max age ledgers later, and stale from then on |
| `Oracle.PriceOracle.Price` | contracts/price_oracle/src/lib.rs:128-136 | reading the stored map answers as the rule for fresh prices |
| `RateLimiter.BucketRing.Advance` | contracts/rate_limiter/src/lib.rs:484-509 | rotating until the newest bucket covers the ledger keeps the ring a mirror of the payment log; it ends, and is refused exactly when it runs past the last ledger, which only an empty ring can do |
| `RateLimiter.BucketRing.AddToCurrent` | contracts/rate_limiter/src/lib.rs:527-551 | adding to the newest bucket mirrors appending to the log, and is refused exactly when the bucket would overflow |
| `RateLimiter.BucketRing.Record` | contracts/rate_limiter/src/lib.rs:189-229 | a recorded payment leaves the ring mirroring the log with it appended; it is refused exactly when its bucket cannot hold it or, before anything was recorded, the ring cannot reach its ledger, and then changes nothing |
| `RateLimiter.BucketRing.Rebuild` | contracts/rate_limiter/src/lib.rs:469-479 | setting or updating limits starts an empty log |
| `RateLimiter.BucketRing.SumSpend` | contracts/rate_limiter/src/lib.rs:511-517 | the buckets' spend equals the log's total over the ledgers from (n-1) slots before the current slot to now |
| `RateLimiter.BucketRing.SumTxCount` | contracts/rate_limiter/src/lib.rs:519-525 | the same for the number of payments |
| `RateLimiter.WindowBrackets` | contracts/rate_limiter/src/lib.rs:466-468 | the ring's window holds the last (n-1)*size+1 ledgers whole and nothing n*size ledgers old; counts are bracketed by those windows, and so are spends unless credits were recorded |
| `RateLimiter.WindowCanExceedIff` | contracts/rate_limiter/src/lib.rs:164-172 | for any log of admitted payments, credits included: some further payments, none above the per-transaction cap and all let through by the spend test, put more than the limit into the next (n-1)*size+1 ledgers exactly when at one of these ledgers what the ring counts from before them is negative |
| `RateLimiter.NextPaymentExceedsIff` | contracts/rate_limiter/src/lib.rs:169-172 | the same for one uncapped payment at the first of these ledgers |
| `RateLimiter.AdmittedStaysUnderLimit` | contracts/rate_limiter/src/lib.rs:169-172 | what any (n-1)*size+1 consecutive ledgers of admitted payments hold and what the ring carried into them stay within the limit together |
| `RateLimiter.NoWindowExceedsLimit` | contracts/rate_limiter/src/lib.rs:169-172 | without credits they hold at most the limit |
| `RateLimiter.CreditsLiftTheLimit` | contracts/rate_limiter/src/lib.rs:169-172 | a log with a credit after which the test admits three times the limit in one ledger, in payments of the limit each |
| `RateLimiter.RotateRefines` | contracts/rate_limiter/src/lib.rs:493-507 | one rotation keeps the mirror |
| `RateLimiter.CurrentRefines` | contracts/rate_limiter/src/lib.rs:541-550 | either way the newest bucket is updated, the ring mirrors the longer log |
| `GovernanceTheorems.ExecutionIsEarned` | contracts/governance/src/lib.rs:306-345 | on every run an execution follows a vote that first brought a duplicate-free list of then-owners to the threshold of that time; the list still meets the threshold now, eta = that ledger + the timelock then in force has come, and the time to live has not passed |
| `GovernanceTheorems.ExecutesAtMostOnce` | contracts/governance/src/lib.rs:16-17 | no proposal is executed twice on any run |
| `GovernanceTheorems.ConfigurationStaysProper` | contracts/governance/src/lib.rs:576-593 | on every run owners are distinct, 1 <= threshold <= number of owners, timelock < time to live |
| `GovernanceTheorems.OnlyExecutionsReconfigure` | contracts/governance/src/lib.rs:391-432 | owners, threshold, timelock and time to live change on a run only if a proposal aimed at this contract was executed |
| `GovernanceTheorems.TargetsStay` | contracts/governance/src/lib.rs:60-75 | what a proposal is about, when it was made, the quorum it reached and an execution never change |
| `GovernanceProofs.ExecuteSucceedsIff` | contracts/governance/src/lib.rs:306-360 | exactly when an execution goes through: any status but Executed, within the time to live, enough votes, quorum once reached, timelock over, and a change the configuration admits or an accepting target |
| `GovernanceTheorems.EarlyCancelIsFinal` | contracts/governance/src/lib.rs:363-389 | a proposal cancelled before quorum is never executed on any run |
| `GovernanceTheorems.CancelStopsIff` | contracts/governance/src/lib.rs:363-389 | if nothing but time passes after a cancel, some later ledger executes the proposal exactly when it had reached quorum, has votes for the present threshold, can clear its timelock in time and asks for something the rules admit |
| `GovernanceTheorems.CancelledProposalExecutes` | contracts/governance/src/lib.rs:313-315 | a run on which a cancelled proposal is executed |
| `GovernanceLaws.CancelledIsExecutedIff` | contracts/governance/src/lib.rs:306-360 | exactly which runs execute a cancelled proposal: those with an execution that finds its quorum reached, its votes enough and its deadline open under the threshold and time to live then in force |
| `GovernanceLaws.ExecutedOnSomeRunIff` | contracts/governance/src/lib.rs:306-360 | with room for one timelock and three proposals, any unexecuted proposal, expired or cancelled, is executed on some further run exactly when its action is possible and it was not cancelled before quorum |
| `GovernanceLaws.CancelIsFinalIff` | contracts/governance/src/lib.rs:363-389 | with that room, a cancel is final over all runs exactly when it came before quorum or the action is impossible |
| `GovernanceLaws.ExpiryIsFinalIff` | contracts/governance/src/lib.rs:14-15 | with that room, expiry is final over all runs exactly when the action is impossible: the header's invariant 3 fails for every other expired proposal |
| `GovernanceLaws.RaisedTtlRevivesIff` | contracts/governance/src/lib.rs:472-486 | after the time to live is raised, some later ledger executes an expired proposal exactly under these conditions on quorum, votes, deadline and action |
| `GovernanceTheorems.ExpiryHolds` | contracts/governance/src/lib.rs:320-326 | on a run that keeps the time to live below its age an expired proposal is not executed |
| `GovernanceTheorems.ExpiredProposalRevives` | contracts/governance/src/lib.rs:14-15 | a run on which an expired proposal is executed after the time to live was raised |
| `GovernanceLaws.Legislate` | contracts/governance/src/lib.rs:413-486 | owners of a live contract can carry through any change the rules admit, within one timelock and without touching what is stored |
| `GovernanceLaws.StallsIff` | contracts/governance/src/lib.rs:306-360 | some run executes something more exactly when a proposal made now would have a deadline or a stored one is in reach of votes and waiting |
| `GovernanceLaws.InitialTtlStallsIff` | contracts/governance/src/lib.rs:98-140 | a deployment is accepted and no run ever executes anything exactly when now + time to live overflows |
| `GovernanceLaws.NewTtlFreezesIff` | contracts/governance/src/lib.rs:472-486 | an executed change of the time to live freezes the contract exactly when it overflows from now and from every proposal not yet executed |
| `GovernanceLaws.FreezeCanBeLegislated` | contracts/governance/src/lib.rs:472-486 | the owners of a live contract past ledger 0 whose unexecuted proposals were all made past ledger 0 can bring that about |
| `GovernanceTheorems.OversizedTtlFreezes` | contracts/governance/src/lib.rs:472-486 | once frozen, no run executes or reconfigures again |
| `GovernanceProofs.RunKeeps` | contracts/governance/src/lib.rs:98-389 | every transaction keeps votes, ballots, records and history in agreement |
| `GovernanceContract.Governance.ValidateOwnersAndThreshold` | contracts/governance/src/lib.rs:576-593 | the nested scan accepts exactly distinct owners with 1 <= threshold <= their number |
| `GovernanceContract.Governance.Initialize` | contracts/governance/src/lib.rs:98-140 | configures once; the new storage, balances and answer are exactly the transition's, a refusal changes nothing, and the invariant is kept |
| `GovernanceContract.Governance.Propose` | contracts/governance/src/lib.rs:144-222 | registers a proposal with its first vote, approved at once if that is quorum; the new storage, balances and answer are exactly the transition's, a refusal changes nothing, and the invariant is kept |
| `GovernanceContract.Governance.Approve` | contracts/governance/src/lib.rs:225-302 | adds one vote per owner, fixing quorum and eta the first time; the new storage, balances and answer are exactly the transition's, a refusal changes nothing, and the invariant is kept |
| `GovernanceContract.Governance.Execute` | contracts/governance/src/lib.rs:306-360 | marks, then acts, and rolls back the mark if the action fails; the new storage, balances and answer are exactly the transition's, a refusal changes nothing, and the invariant is kept |
| `GovernanceContract.Governance.Cancel` | contracts/governance/src/lib.rs:363-389 | marks a proposal cancelled; the new storage, balances and answer are exactly the transition's, a refusal changes nothing, and the invariant is kept |
| `GovernanceContract.Governance.GetProposal` | contracts/governance/src/lib.rs:490-504 | reads what is stored, except that a proposal neither executed nor cancelled reads as expired exactly when its deadline is past; it fails only for an unknown id or a deadline that overflows |
| `GovernanceContract.Governance.ExecuteInternalAction` | contracts/governance/src/lib.rs:413-486 | rotation, timelock and time-to-live changes apply exactly when valid, anything else is refused |
| `SubscriptionTheorems.ScheduleIndependence` | contracts/subscription/src/lib.rs:24-36 | two histories that space their collections differently end, once drained at the same ledger, in the same subscription, at min(max periods, periods elapsed) |
| `SubscriptionTheorems.DrainReaches` | contracts/subscription/src/lib.rs:118-148 | collecting at one ledger until refused reaches every elapsed authorised period exactly when the payer can pay for all of them, the payee can hold it and the next due ledger fits a u32 |
| `SubscriptionTheorems.CollectSucceedsIff` | contracts/subscription/src/lib.rs:252-272 | a collection succeeds exactly when the payee asks and the payer covers all periods due, up to 32, at once (the header promises this per period) |
| `SubscriptionTheorems.CancelSucceedsIff` | contracts/subscription/src/lib.rs:277-301 | a cancel succeeds exactly when a party asks, the subscription is active and the payer covers what is due, up to 32 periods (the header promises that the payer can always cancel) |
| `SubscriptionProofs.ReachableIsOnSchedule` | contracts/subscription/src/lib.rs:131-148 | on every run next = start + (collected + 1) * interval, collected never exceeds the cap or the periods elapsed, and the charges add up to amount * collected |
| `SubscriptionProofs.DueIsTheGap` | contracts/subscription/src/lib.rs:118-127 | the capped count is the gap to the target or 32, whichever is smaller |
| `SubscriptionProofs.AdvanceSucceedsIff` | contracts/subscription/src/lib.rs:131-148 | exactly when several periods can be charged at once |
| `SubscriptionProofs.RunKeeps` | contracts/subscription/src/lib.rs:193-301 | every transaction keeps the schedule, the books and at most 128 active subscriptions per payer |
| `SubscriptionTheorems.CancelForgivesBeyondTheCap` | contracts/subscription/src/lib.rs:22-36 | on every run after a cancel the elapsed periods are all paid exactly when at most 32 were outstanding; the rest is forgiven for good |
| `SubscriptionTheorems.RunContinues` | contracts/subscription/src/lib.rs:66-86 | terms never change, progress never goes back, an ended subscription stays as it ended |
| `Subscriptions.SubscriptionContract.FindIndex` | contracts/subscription/src/lib.rs:167-174 | the scan finds the first record with the id |
| `Subscriptions.SubscriptionContract.CountActive` | contracts/subscription/src/lib.rs:222-225 | the scan counts the payer's active subscriptions |
| `Subscriptions.SubscriptionContract.Subscribe` | contracts/subscription/src/lib.rs:198-247 | appends a record due one interval from now; the new storage, balances and answer are exactly the transition's, a refusal changes nothing, and the invariant is kept |
| `Subscriptions.SubscriptionContract.AdvancePeriods` | contracts/subscription/src/lib.rs:131-148 | charges and advances, or changes nothing |
| `Subscriptions.SubscriptionContract.Collect` | contracts/subscription/src/lib.rs:252-272 | collects what is due; the new storage, balances and answer are exactly the transition's, a refusal changes nothing, and the invariant is kept |
| `Subscriptions.SubscriptionContract.Cancel` | contracts/subscription/src/lib.rs:277-301 | settles what is due and ends; the new storage, balances and answer are exactly the transition's, a refusal changes nothing, and the invariant is kept |
| `CircuitBreakerProofs.FlipsAreBacked` | contracts/circuit_breaker/src/lib.rs:164-213 | on every run each pause or unpause of a duplicate-free list has five distinct trusted backers who proposed within the window, after the last rotation and the last flip of that kind |
| `CircuitBreakerProofs.CountIsCardinalityIff` | contracts/circuit_breaker/src/lib.rs:306-334 | the count is at least the distinct nodes whose proposal stands, and equal exactly when none of them is listed twice |
| `CircuitBreakerProofs.FlipSucceedsIff` | contracts/circuit_breaker/src/lib.rs:164-179 | without duplicates a flip goes through exactly when five distinct proposals stand |
| `CircuitBreakerProofs.OneNodeCanPauseAlone` | contracts/circuit_breaker/src/lib.rs:326-332 | a run on which one node, listed five times, pauses the system: the list is stored unchecked |
| `CircuitBreakerProofs.CountsOrRenews` | contracts/circuit_breaker/src/lib.rs:140-148 | on every run a trusted node's last proposal still counts or can be renewed, both only at the ledger it runs out |
| `CircuitBreakerProofs.PauseProposalsStand` | contracts/circuit_breaker/src/lib.rs:198-213 | on any run without a rotation or a pause every pause proposal stands, however often the system is unpaused |
| `CircuitBreakerProofs.UnpauseCanBeUndone` | contracts/circuit_breaker/src/lib.rs:164-213 | so nodes whose proposals predate an unpause can pause again while those still count, with no new proposal |
| `CircuitBreakerProofs.RunKeeps` | contracts/circuit_breaker/src/lib.rs:103-213 | stored maps and flag are what the history says, on every run |
| `CircuitBreakerContract.CircuitBreaker.Initialize` | contracts/circuit_breaker/src/lib.rs:67-97 | sets up once; the new storage, balances and answer are exactly the transition's, a refusal changes nothing, and the invariant is kept |
| `CircuitBreakerContract.CircuitBreaker.SetTrustedNodes` | contracts/circuit_breaker/src/lib.rs:103-119 | replaces the list and clears all proposals; the new storage, balances and answer are exactly the transition's, a refusal changes nothing, and the invariant is kept |
| `CircuitBreakerContract.CircuitBreaker.SetProposeWindow` | contracts/circuit_breaker/src/lib.rs:122-132 | sets a positive window; the new storage, balances and answer are exactly the transition's, a refusal changes nothing, and the invariant is kept |
| `CircuitBreakerContract.CircuitBreaker.ProposePause` | contracts/circuit_breaker/src/lib.rs:135-157 | records a pause proposal after its cooldown; the new storage, balances and answer are exactly the transition's, a refusal changes nothing, and the invariant is kept |
| `CircuitBreakerContract.CircuitBreaker.ProposeUnpause` | contracts/circuit_breaker/src/lib.rs:182-195 | records an unpause proposal; the new storage, balances and answer are exactly the transition's, a refusal changes nothing, and the invariant is kept |
| `CircuitBreakerContract.CircuitBreaker.ExecutePause` | contracts/circuit_breaker/src/lib.rs:164-179 | pauses on quorum and clears the proposals; the new storage, balances and answer are exactly the transition's, a refusal changes nothing, and the invariant is kept |
| `CircuitBreakerContract.CircuitBreaker.Unpause` | contracts/circuit_breaker/src/lib.rs:198-213 | unpauses on quorum and clears the proposals; the new storage, balances and answer are exactly the transition's, a refusal changes nothing, and the invariant is kept |
| `CircuitBreakerContract.CircuitBreaker.CountValid` | contracts/circuit_breaker/src/lib.rs:311-334 | the loop counts the distinct standing nodes exactly when none is listed twice |
| `EscrowTheorems.PricesAreHeld` | contracts/escrow/src/lib.rs:76-121 | on every run the contract holds the price of every live job, and tokens beyond that never leave |
| `EscrowTheorems.PaidExactlyOnce` | contracts/escrow/src/lib.rs:164-301 | on every run a live job has paid nothing and an ended one its price exactly once, to the worker if completed, to the requester if refunded |
| `EscrowTheorems.EarlyRefundNeedsADispute` | contracts/escrow/src/lib.rs:205-225 | an accepted job is refunded before its deadline only by the arbiter's ruling in an opened dispute or more than 14400 ledgers after it was opened |
| `EscrowTheorems.JobsContinue` | contracts/escrow/src/lib.rs:30-48 | terms and worker are fixed, a job only moves forward, an ended one never changes |
| `EscrowTheorems.RefundSucceedsIff` | contracts/escrow/src/lib.rs:196-240 | exactly when a refund goes through: custody makes the price payable, so only requester, status, deadlines and the receiver's balance decide |
| `EscrowTheorems.ReleaseSucceedsIff` | contracts/escrow/src/lib.rs:164-194 | exactly when a release goes through |
| `EscrowTheorems.NoPriceIsStuckIff` | contracts/escrow/src/lib.rs:196-240 | the requester of a live job can take the price back at some later ledger, exactly unless receiving overflows or a dispute runs to the last ledger |
| `EscrowTheorems.DeliveredWorkIsRefundableIff` | contracts/escrow/src/lib.rs:205-225 | on every run from its submission on, an undisputed, unreleased result is refundable exactly from the deadline on, although delivered |
| `EscrowProofs.StepKeeps` | contracts/escrow/src/lib.rs:76-301 | every transaction keeps custody and every job's record, and never shrinks the surplus of any token |
| `EscrowContract.Escrow.CreateJob` | contracts/escrow/src/lib.rs:76-121 | locks the price; the new storage, balances and answer are exactly the transition's, a refusal changes nothing, and the invariant is kept |
| `EscrowContract.Escrow.AcceptJob` | contracts/escrow/src/lib.rs:123-141 | assigns the worker before the deadline; the new storage, balances and answer are exactly the transition's, a refusal changes nothing, and the invariant is kept |
| `EscrowContract.Escrow.SubmitResult` | contracts/escrow/src/lib.rs:143-162 | stores the assigned worker's result; the new storage, balances and answer are exactly the transition's, a refusal changes nothing, and the invariant is kept |
| `EscrowContract.Escrow.Release` | contracts/escrow/src/lib.rs:164-194 | pays the worker; the new storage, balances and answer are exactly the transition's, a refusal changes nothing, and the invariant is kept |
| `EscrowContract.Escrow.Refund` | contracts/escrow/src/lib.rs:196-240 | pays the requester back; the new storage, balances and answer are exactly the transition's, a refusal changes nothing, and the invariant is kept |
| `EscrowContract.Escrow.Dispute` | contracts/escrow/src/lib.rs:242-261 | opens a dispute with its timeout; the new storage, balances and answer are exactly the transition's, a refusal changes nothing, and the invariant is kept |
| `EscrowContract.Escrow.ResolveDispute` | contracts/escrow/src/lib.rs:264-301 | pays as the arbiter rules; the new storage, balances and answer are exactly the transition's, a refusal changes nothing, and the invariant is kept |
| `BountyTheorems.OneWinnerPaidOnce` | contracts/bug_bounty_oracle/src/lib.rs:188-233 | on every run a bounty is paid exactly when a submission is accepted, that one is the only one and the recorded winner and its hunter has the prize; other ended bounties returned it to the sponsor, once |
| `BountyTheorems.IndexIsABijection` | contracts/bug_bounty_oracle/src/lib.rs:144-173 | on every run the counter is the number of submissions and the payload index a bijection between (bounty, payload) pairs and submissions |
| `BountyTheorems.PrizesAreHeld` | contracts/bug_bounty_oracle/src/lib.rs:74-119 | on every run the contract holds the prize of every open bounty, and tokens beyond that never leave |
| `BountyTheorems.AcceptanceIsFinal` | contracts/bug_bounty_oracle/src/lib.rs:188-233 | after an acceptance no run accepts another submission, returns the prize or pays again |
| `BountyTheorems.RunContinues` | contracts/bug_bounty_oracle/src/lib.rs:14-59 | ended bounties and decided submissions never change |
| `BountyTheorems.AcceptSucceedsIff` | contracts/bug_bounty_oracle/src/lib.rs:188-233 | exactly when an acceptance goes through, the deadline playing no part |
| `BountyTheorems.ReturnSucceedsIff` | contracts/bug_bounty_oracle/src/lib.rs:263-317 | exactly when the prize can be returned: by anyone after the deadline, by the sponsor before any submission |
| `BountyProofs.RunKeeps` | contracts/bug_bounty_oracle/src/lib.rs:74-317 | every transaction keeps custody, index, counters and winners, and never shrinks the surplus of any token |
| `BugBounty.BugBountyOracle.CreateBounty` | contracts/bug_bounty_oracle/src/lib.rs:74-119 | locks the prize; the new storage, balances and answer are exactly the transition's, a refusal changes nothing, and the invariant is kept |
| `BugBounty.BugBountyOracle.SubmitPayload` | contracts/bug_bounty_oracle/src/lib.rs:126-181 | registers a new payload; the new storage, balances and answer are exactly the transition's, a refusal changes nothing, and the invariant is kept |
| `BugBounty.BugBountyOracle.AcceptSubmission` | contracts/bug_bounty_oracle/src/lib.rs:188-233 | pays the hunter; the new storage, balances and answer are exactly the transition's, a refusal changes nothing, and the invariant is kept |
| `BugBounty.BugBountyOracle.RejectSubmission` | contracts/bug_bounty_oracle/src/lib.rs:236-260 | rejects a pending submission; the new storage, balances and answer are exactly the transition's, a refusal changes nothing, and the invariant is kept |
| `BugBounty.BugBountyOracle.CloseExpired` | contracts/bug_bounty_oracle/src/lib.rs:263-286 | returns the prize after the deadline; the new storage, balances and answer are exactly the transition's, a refusal changes nothing, and the invariant is kept |
| `BugBounty.BugBountyOracle.CancelBounty` | contracts/bug_bounty_oracle/src/lib.rs:289-317 | returns the prize while nobody has submitted; the new storage, balances and answer are exactly the transition's, a refusal changes nothing, and the invariant is kept |
| `SubscriptionEffects.SubscribeDoes` | contracts/subscription/src/lib.rs:198-247 | exactly when a subscription is made; it stores payer, payee, token, amount, interval and cap as given, due one interval from now |
| `SubscriptionEffects.ChargesStayAuthorised` | contracts/subscription/src/lib.rs:193-247 | on every run after it, all charges for it are at most the agreed amount for each whole agreed interval since, up to the agreed number of periods |
| `SubscriptionEffects.CollectCharges` | contracts/subscription/src/lib.rs:252-272 | a collection moves exactly the amount times the periods due, at most 32, from payer to payee, and ends the subscription exactly with its last period |
| `SubscriptionEffects.CancelCharges` | contracts/subscription/src/lib.rs:277-301 | a cancel charges the same and ends the subscription, as exhausted or cancelled |
| `EscrowEffects.CreateDoes` | contracts/escrow/src/lib.rs:76-121 | exactly when a job is made; it moves exactly the price from requester to contract and stores the terms as given |
| `EscrowEffects.AcceptDoes` | contracts/escrow/src/lib.rs:123-141 | exactly when a job is taken, and by whom; nothing else changes |
| `EscrowEffects.SubmitDoes` | contracts/escrow/src/lib.rs:143-162 | exactly when a result is handed in, and that it is the one stored |
| `EscrowEffects.DisputeDoes` | contracts/escrow/src/lib.rs:242-261 | exactly when a dispute is opened, for 14400 ledgers |
| `EscrowEffects.ReleaseDoes` | contracts/escrow/src/lib.rs:164-194 | a release completes the job and moves exactly the price to the worker |
| `EscrowEffects.RefundDoes` | contracts/escrow/src/lib.rs:196-240 | a refund ends the job and moves exactly the price to the requester |
| `EscrowEffects.RulingIsFollowed` | contracts/escrow/src/lib.rs:264-301 | a ruling for the worker completes the job and pays exactly the worker, one against refunds and pays exactly the requester |
| `EscrowEffects.RulingSucceedsIff` | contracts/escrow/src/lib.rs:264-301 | exactly when a ruling goes through |
| `BountyEffects.CreateDoes` | contracts/bug_bounty_oracle/src/lib.rs:74-119 | exactly when a bounty is made; it moves exactly the prize from sponsor to contract and stores the terms as given |
| `BountyEffects.SubmitDoes` | contracts/bug_bounty_oracle/src/lib.rs:126-181 | exactly when a payload is registered; hunter and payload are stored as given, under the next number |
| `BountyEffects.AcceptDoes` | contracts/bug_bounty_oracle/src/lib.rs:188-233 | an acceptance moves exactly the prize to the submission's hunter and records it as the winner |
| `BountyEffects.RejectDoes` | contracts/bug_bounty_oracle/src/lib.rs:236-260 | exactly when a submission is rejected; nothing else changes |
| `BountyEffects.ReturnsDo` | contracts/bug_bounty_oracle/src/lib.rs:263-317 | both returns move exactly the prize to the sponsor |
| `GovernanceEffects.InitializeDoes` | contracts/governance/src/lib.rs:98-140 | exactly when a configuration is accepted, and that it is stored as given |
| `GovernanceEffects.ProposeDoes` | contracts/governance/src/lib.rs:144-222 | exactly when a proposal is accepted; it is stored as given with its first vote, approved with its timelock running exactly under a threshold of one |
| `GovernanceEffects.ApproveSucceedsIff` | contracts/governance/src/lib.rs:225-302 | exactly when a vote is accepted |
| `GovernanceEffects.ApproveChanges` | contracts/governance/src/lib.rs:225-302 | a vote is added, the one that first makes quorum starts the timelock, and nothing else changes |
| `GovernanceEffects.ExecuteChanges` | contracts/governance/src/lib.rs:306-486 | an execution marks the proposal, makes exactly the change it asks of this contract, and changes nothing else |
| `GovernanceEffects.CancelChanges` | contracts/governance/src/lib.rs:363-389 | exactly when a cancel goes through, and that it changes the status only |
| `CircuitBreakerEffects.InitializeDoes` | contracts/circuit_breaker/src/lib.rs:67-97 | exactly when set-up goes through; admin, list and window are stored as given |
| `CircuitBreakerEffects.RotationDoes` | contracts/circuit_breaker/src/lib.rs:103-119 | only the admin rotates; the list is stored as given, every proposal is forgotten, the flag stays |
| `CircuitBreakerEffects.WindowDoes` | contracts/circuit_breaker/src/lib.rs:122-132 | only the admin sets the window, to a positive value, and nothing else changes |
| `CircuitBreakerEffects.ProposalsDo` | contracts/circuit_breaker/src/lib.rs:135-195 | exactly when each kind of proposal is recorded, for whom and when, and that nothing else changes |
| `CircuitBreakerEffects.FlipsDo` | contracts/circuit_breaker/src/lib.rs:164-213 | without duplicates, exactly five distinct trusted nodes with proposals at most one window old flip the flag, each kind its way, using up the proposals of that kind only |

## Left out

- Ed25519 verification (section 5.1.7 of RFC 8032), SHA-256 and the XDR bytes of
  addresses are uninterpreted functions, so preimages determine addresses up to
  their digests.
- `require_auth` is the caller passed as an argument; the one consequence kept is
  that a contract's own address never authorises anything.
- A token is a map of balances with `transfer`. Allowances are not modelled: a
  subscription's draw needs the payer's balance only.
- A venue of unknown code answers a call with any two amounts, delivered and
  reported, or refuses; it does not call back and, within one transaction, answers
  equal calls alike (a route makes no two). Tokens and governance targets do not
  call back either.
- External governance targets and circuit breakers are an answer yes or no;
  undecodable arguments are one failing action.
- Whether the channel's admin calls for venue and feed are approved is given; their
  own proposals and multisig settings repeat the circuit
  breaker's counting argument, as do those of the escrow and the rate limiter.
- The solvency proof (`set_solvency_vk`, `verify_solvency_proof`) is host
  cryptography.
- Events, storage keys, storage lifetimes and read-only getters without a rule of
  their own.
- The rate limiter's `check` calls a function that does not exist, and its daily
  ring divides the hourly length; only the hourly ring is modelled, and the spend
  test as a condition on the payments that were recorded. Kill switch and limits
  themselves are not modelled.
- ChannelTheorems.SpendingIsPaced: counts on-chain payments only, because voucher
  payouts are outside the rate limit in the code as well.
- GovernanceLaws.ExecutedOnSomeRunIff: asks for room for one timelock and three
  proposals below the last ledger and number, because without it which proposals
  are still in reach is what `StallsIff` and `CancelledIsExecutedIff` say.
- `agent_wallet_factory` and `reputation_registry` would add easy members only.
- Dashboard, SDKs, command line, integrations and deployment scripts; the
  `packages/core` mathematics is not part of this model.
