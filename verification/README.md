# A Dafny model of llmxy's billing, quota, control-plane and stream code

llmxy is an LLM gateway. This project models the parts of its API service where money, quota and
protocol state are moved step by step, and proves what those steps keep over every input and every
run. Where the code updates rows or buffers in place the model has a class or a method with a loop,
proved against a specification on values; the theorems are lemmas about that specification.

| file | what it models |
|---|---|
| `Prelude.dfy` | options, minimum, maximum, integer ceiling |
| `Calendar.dfy` | months of the proleptic Gregorian calendar, the monthly period end |
| `Billing.dfy` | one user's wallet, subscriptions and balance transactions; charge, refund, grant, subscribe, renew, cancel |
| `BillingStore.dfy` | the same operations as the code's loops over mutable rows |
| `Writes.dfy` | what each of these writes does, on the fields of the rows |
| `LedgerRuns.dfy` | whole runs of wallet writes and what the transactions record |
| `Lifecycle.dfy` | whole runs of one plan's subscriptions; the renewal worker |
| `LateRefunds.dfy` | runs in which charges are refunded later, in parts and across renewals |
| `ImageRelay.dfy` | image pricing; hold, generate, reconcile over a failing chain |
| `QuotaCache.dfy` | the Redis counters, their mirrors, invalidations, hydrations and read path |
| `AdsStream.dfy` | one ADS stream: reader and push loop interleaved at every await |
| `KeyWindow.dfy` | quota windows of api keys, cached and uncached key state |
| `TtlCache.dfy` | the LRU cache with expiry |
| `RateLimit.dfy` | the per-minute request counter |
| `Framing.dfy` | incremental server-sent-event framing |
| `ChatStream.dfy` | chat streams to Anthropic message streams |
| `ResponsesStream.dfy` | chat streams to Responses streams and back, as text |
| `CodecWitness.dfy` | a codec that meets the assumptions of `ResponsesStream.dfy` |
| `Payload.dfy` | Anthropic requests to chat requests and back |
| `Routing.dfy` | route selection, the chain header, the translator's candidate list |

`dafny verify dfyconfig.toml` checks the whole project. Every lemma is marked `{:induction false}`:
no proof relies on induction the verifier adds by itself.

## How the model stands to the code

- Money is in whole cents and unbounded. Prices, quotas and rates are non-negative. The code's
  `ceil(micro / 10_000_000)` goes through a float; the model uses the exact integer ceiling, which
  agrees for micro-cent amounts below 2^53.
- An account is one user's: every query filters on the user. A subscription's id is its position in
  that user's rows. The order of rows that end at the same instant is left open, so every theorem
  about charges holds for each order the database may choose.
- Each database transaction and each Redis pipeline is one step. The clock, the random draw, the
  round-robin cursor, the routing label, upstream replies, nonces and the JSON codec are parameters.
- The api key's usage counter is the database column moved by the UPDATE statements; nothing is said
  about the in-session object, which the code adjusts once more.

Places where the code does less than its comments or documentation say, kept as the code has them:

- A subscription the hold emptied is no longer "active" when the refund looks, so its share goes to
  the wallet (`ChargeThenRefund`, `ChargeThenRefundRestores`).
- The gate before an image hold is not a guarantee: a subscription that ends between gate and hold
  leaves the wallet to pay below zero (`GateCanBeOutrun`, `GateCoversHold`).
- A purchase cap binds the subscribe endpoint only: a paid order grants the plan with no look at
  the cap (`OrderPassesCap`, `OnceIsTwice`, `PurchaseCapHoldsIff`).
- A refund does not ask whether the row was refilled since the charge, or the charge refunded
  before, and can lift a row above its plan (`RefundAcrossRenewal`, `RefundTwice`,
  `WithinPlanIff`, `FairRunsStayWithinPlan`). The image relay refunds its hold once, in the same
  transaction, and stays clear of both (`RelayRow`).
- A negative token count reported by an upstream is logged as a negative cost but credits nothing
  beyond the hold (`NegativeCostIff`, `NegativeCostIsLogged`, `ExecuteImageRelay`).
- Cancels, closing or suspending renewals and administrators' adjustments mark no cache
  invalidation, so Redis can go on showing quota given up (`UnmarkedCancelLeavesQuotaVisible`,
  `UnmarkedCoherentIff`).
- The fast quota check lets through exactly the users that Postgres refuses while a counter is
  below zero (`FastPathAgreesIff`, `OverdrawnWalletIsLetThrough`).
- A notification that coincides with a pending type is used up on the pending types alone
  (`NotifyCanBeAbsorbed`, `UpToDateIff`).
- Text holding U+0085, U+2028 or U+2029 is lost on the way from chat to Responses and back, since
  the JSON encoder leaves these characters in place and `splitlines` breaks on them; the token
  counts are lost with it (`ThereAndBack`).
- System prompts given as block lists, `top_k`, URL images, annotations of blocks and turns, and
  further keys such as tools or metadata do not survive the trip from Anthropic to OpenAI and back, and an absent stream flag comes back as false
  (`RequestReturnsIff`).
- With a stale snapshot the cached key check can leave another row than the uncached one
  (`StaleSnapshotSkipsRoll`); exactly when is `StaleSnapshotAgreesIff`.
- When nothing of a chain serves any more, the translator still tries its primary, asking only
  whether the channel is enabled, so a model disabled after the selection is tried
  (`DisabledModelIsTried`, `OnlyServingTriedIff`, `AllTriedIff`).

## Model

| member | source | states |
|---|---|---|
| Calendar.MonthLength | api/app/services/billing.py:156-163 | consecutive months tile time with the calendar's lengths, leap years included |
| Calendar.MonthStarts | api/app/services/billing.py:156-163 | the days of the year before each month, leap years included |
| Calendar.UnixEpoch | api/app/services/billing.py:156-163 | the calendar meets the Unix epoch |
| Calendar.NextPeriodEnd | api/app/services/billing.py:156-163 | the period end is later than now by at most 31 days |
| Calendar.NextPeriodEndIsNextBoundary | api/app/services/billing.py:156-163 | the period end is a month boundary and no other lies between it and now |
| Billing.DrainedAt | api/app/services/billing.py:248-269 | closed form: the k-th soonest-ending subscription gives the smaller of what it has and what is left of the cost |
| Billing.DrainedElsewhere | api/app/services/billing.py:248-269 | subscriptions not among the active ones are untouched by a charge |
| Billing.ChargeConserves | api/app/services/billing.py:224-307 | wallet plus all quota falls by exactly the cost, the key counter rises by it, and the breakdown is positive entries adding up to it, for every tie order |
| Billing.ChargeBySource | api/app/services/billing.py:260-282 | every source falls by exactly what the breakdown says was taken from it |
| Billing.ChargeRow | api/app/services/billing.py:224-307 | a charge changes a row only in its quota, downwards, not below zero, and only if it was active |
| Billing.SplitTotals | api/app/services/billing.py:101-112 | the subscription part of a refund hands out what was asked, up to all that was taken from subscriptions |
| Billing.SplitFromSource | api/app/services/billing.py:101-112 | no source is handed more than it gave; all of it when the refund reaches that far and the source still serves |
| Billing.RefundConserves | api/app/services/billing.py:80-153 | a refund returns exactly the smaller of the amount asked and the amount taken, worth and key counter move by it, the wallet never falls |
| Billing.RefundBySource | api/app/services/billing.py:101-130 | a subscription is credited at most what it gave, nothing if it no longer serves |
| Billing.ChargeThenRefund | api/app/services/billing.py:80-307 | charge then full refund restores every row but the emptied ones, whose quota the wallet receives |
| Billing.ChargeThenRefundRestores | api/app/services/billing.py:80-307 | the round trip is exact if and only if nothing was charged, nothing was active, or the first row covers the cost with something left |
| Billing.QuerySum | api/app/services/billing.py:72-77 | adding up the queried rows gives the active quota in any tie order |
| Billing.HoldKeepsWallet | api/app/services/billing.py:72-77 | from a non-negative wallet a charge keeps it so if and only if the cost is within the available amount |
| Billing.HoldFromRows | api/app/services/billing.py:72-77 | a debt takes nothing from what the rows offer: with no positive wallet, a charge leaves the wallet alone if and only if it is within the available amount |
| Billing.InitialPeriod | api/app/services/billing.py:166-175 | a recurring plan's first period ends at the next month boundary, a one-time plan's after its days, thirty by default, at least one |
| Billing.CancelKeepsUsedShare | api/app/api/v1/subscriptions.py:61-66 | an immediate cancel keeps the used share of the price rounded up, and the clamp never fires within the plan's quota |
| Writes.SoonestEndFirst | api/app/services/billing.py:178-197 | a row pays only when every active row that ends sooner is empty |
| Writes.WalletLast | api/app/services/billing.py:241-282 | the wallet pays only when every row that can is empty; rows that cannot are left alone |
| Writes.WalletFirst | api/app/services/billing.py:95-100 | of a refund the wallet first gets back what it gave |
| Writes.PurchasesAreRows | api/app/api/v1/plans.py:65-79 | purchases are all rows of the plan, whatever became of them |
| Writes.SubscribeVerdict | api/app/api/v1/plans.py:46-104 | who may subscribe and why not: plan running, cap used up, balance short, in this order |
| Writes.GrantedRow | api/app/services/billing.py:343-378 | the row a grant adds, full and active from now to the end of its first period, and nothing else changed |
| Writes.RenewalOutcome | api/app/services/billing.py:399-457 | a renewal advances if and only if the plan exists and recurs, no end is scheduled, the user is active and the wallet covers the price; else exactly when it suspends or expires, and what it costs |
| Writes.RenewOnDemandIff | api/app/api/v1/subscriptions.py:134-144 | nothing happens while the period runs or after closing; otherwise the row advances under the same condition |
| Writes.CancelPaysBack | api/app/api/v1/subscriptions.py:61-94 | an immediate cancel credits the unused share of the price rounded down, in one refund transaction, closes and empties that row at now and touches no other |
| Writes.CancelOtherwise | api/app/api/v1/subscriptions.py:38-66 | a closed row is left alone, a cancel at period end only schedules, and with nothing to prorate nothing is paid |
| Writes.ResumeUnschedules | api/app/api/v1/subscriptions.py:113-123 | a resume clears the flag of an open row and changes nothing else |
| BillingStore.Ledger.ActiveSubscriptions | api/app/services/billing.py:178-197 | every active row with quota once, soonest end first |
| BillingStore.Ledger.AvailableCents | api/app/services/billing.py:72-77 | active quota plus the non-negative wallet |
| BillingStore.Ledger.HasQuota | api/app/services/billing.py:200-212 | the gate's verdict and reason |
| BillingStore.Ledger.DrainRows | api/app/services/billing.py:244-269 | the loop with its early exit computes the closed form |
| BillingStore.Ledger.ChargeUser | api/app/services/billing.py:224-307 | the code's charge is the specified one, breakdown included |
| BillingStore.Ledger.SplitShares | api/app/services/billing.py:100-112 | the refund loop computes the specified split |
| BillingStore.Ledger.PlanSources | api/app/services/billing.py:97-112 | the wallet's share first, then the subscription shares, as specified |
| BillingStore.Ledger.CreditRows | api/app/services/billing.py:125-132 | each listed credit is added to its row |
| BillingStore.Ledger.RefundToSources | api/app/services/billing.py:80-153 | the code's refund is the specified one, with its result |
| BillingStore.Ledger.TopupWallet | api/app/services/billing.py:310-336 | the wallet and one transaction move by the amount |
| BillingStore.Ledger.GrantSubscription | api/app/services/billing.py:343-378 | one full active row and one grant transaction are appended |
| BillingStore.Ledger.SubscribeWithBalance | api/app/api/v1/plans.py:33-145 | refusals in the code's order, else price paid and plan granted |
| BillingStore.Ledger.RenewSubscription | api/app/services/billing.py:381-459 | all six outcomes of a renewal and the rows they leave |
| BillingStore.Ledger.CancelSubscription | api/app/api/v1/subscriptions.py:34-101 | both cancel modes; a closed subscription is refused unchanged |
| BillingStore.Ledger.ResumeSubscription | api/app/api/v1/subscriptions.py:113-123 | unschedules the end of an open subscription only |
| BillingStore.Ledger.RenewOnDemand | api/app/api/v1/subscriptions.py:134-144 | nothing while the period runs or after closing, else a renewal |
| BillingStore.DrainStops | api/app/services/billing.py:249-251 | once the cost is met the remaining rows would give nothing, so breaking out is sound |
| LedgerRuns.StepRecorded | api/app/services/billing.py:80-378 | each write appends rows showing the wallet just after it, whose amounts are the change of worth |
| LedgerRuns.RunRecorded | api/app/services/billing.py:80-378 | over every run the transactions add up to the change of wallet plus quota, and the last one shows the wallet |
| LedgerRuns.RowShowsItsWallet | api/app/services/billing.py:296-305 | every transaction of a run shows the wallet right after the step that wrote it |
| LedgerRuns.StepByKind | api/app/services/billing.py:80-378 | each write records under its own kind what it moved: top-up, quota granted, cost, refund, price |
| LedgerRuns.RunByKind | api/app/services/billing.py:80-378 | over every run the transactions of each kind add up to what the writes of that kind moved |
| LedgerRuns.StepMoves | api/app/services/billing.py:310-378 | a top-up moves the wallet alone by its amount, a grant no wallet, and neither nor a purchase touches earlier rows or the key counter |
| LedgerRuns.SubscribePays | api/app/api/v1/plans.py:91-139 | a subscription is paid in full without overdrawing, starts running, and a second one is then refused |
| LedgerRuns.StepPurchases | api/app/api/v1/plans.py:68-89 | no write lowers a plan's count; a grant raises it by one whatever the cap, the subscribe endpoint only up to the cap |
| LedgerRuns.PurchasesBounded | api/app/api/v1/plans.py:68-89 | over every run a capped plan is bought at most up to its cap plus once for each grant by an order |
| LedgerRuns.PurchaseCapHoldsIff | api/app/api/v1/orders.py:87-91 | over every run from within the cap, the count stays within it if and only if no grant happens when the cap is already used up |
| LedgerRuns.OrderPassesCap | api/app/api/v1/orders.py:29-54 | whenever a plan can still be bought with the balance, that purchase and a paid order leave two more rows, whatever the cap |
| LedgerRuns.OnceIsTwice | api/app/api/v1/orders.py:113-117 | a plan sold once per user is sold twice |
| Lifecycle.RelayRow | api/app/services/image_relay.py:104-170 | a hold settled in its own transaction never raises a row above where it was |
| Lifecycle.StepRow | api/app/services/billing.py:381-459 | every operation keeps quota within the plan and past-due rows empty, and changes rows only in the listed ways |
| Lifecycle.AdvanceCostsOnePrice | api/app/services/billing.py:423-457 | a period advances only for exactly one price, without overdrawing, with one transaction |
| Lifecycle.RunRow | api/app/api/v1/subscriptions.py:34-144 | over every run rows stay sane and canceled or expired rows never change again |
| Lifecycle.RunSane | api/app/services/billing.py:343-459 | rows granted along a run are sane too |
| Lifecycle.RunPeriods | api/app/services/billing.py:452-453 | after n renewals a row is in the n-th period after its first, each starting where the last ended |
| Lifecycle.ScheduleAndResume | api/app/api/v1/subscriptions.py:42-59 | resuming undoes a scheduled cancel; otherwise the next renewal closes and empties the row for free |
| Lifecycle.ScheduledEndIsFinal | api/app/services/billing.py:404-408 | over every run without a resume a row scheduled to end is never renewed or billed again |
| LateRefunds.WithinPlanIff | api/app/services/billing.py:80-153 | in every run, with any refunds of any charges at any time, an active row holds its fill less what was charged plus what was credited since; so it is within its plan if and only if no more was credited than taken since it was last filled |
| LateRefunds.ChargeLast | api/app/services/billing.py:248-269 | a row a charge drew on without emptying it is the last source it drew on |
| LateRefunds.SplitLast | api/app/services/billing.py:97-112 | a refund reaches the last source of a charge only with what the earlier sources leave |
| LateRefunds.StepRoomy | api/app/services/billing.py:80-307 | each fair step keeps every row, together with all its open charges can still return to it, within the plan |
| LateRefunds.FairRunsStayWithinPlan | api/app/services/billing.py:80-153 | in every run whose refunds are fair (no row drawn on was filled again in between, no charge refunded beyond its amount, in any number of parts) every row stays between zero and the plan's quota |
| LateRefunds.RefundAcrossRenewal | api/app/services/billing.py:125-129 | charge, renew, refund leaves a row with more than its plan |
| LateRefunds.RefundTwice | api/app/services/billing.py:125-129 | so does refunding one charge twice |
| Lifecycle.ScanSettles | api/app/services/subscriptions_renewal.py:19-43 | one pass leaves rows not due alone; each due one is, by the wallet at its turn, expired (emptied at a scheduled or one-time end, its quota kept otherwise), advanced or suspended, each under its exact condition; the wallet pays exactly the advanced prices, only falls, and is not overdrawn |
| Lifecycle.ScanOnce | api/app/services/subscriptions_renewal.py:19-43 | the worker's loop computes that pass |
| ImageRelay.UnitPriceNeverUnder | api/app/services/billing.py:20-33 | the price of the first tier for the size and quality; with no match a tier price that none exceeds; without tiers the default |
| ImageRelay.QuoteByImage | api/app/services/billing.py:64-69 | a quote by the image is unit price times images, rounded up to cents |
| ImageRelay.QuoteByToken | api/app/services/billing.py:52-63 | a quote by tokens is the estimated prompt and the tokens listed for size and quality, for each image, at the model's rates, rounded up |
| ImageRelay.CostOfUsage | api/app/services/billing.py:12-17 | the cost of a usage is its tokens at the rates, rounded up |
| ImageRelay.QuoteMonotone | api/app/services/billing.py:36-69 | quotes are non-negative and grow with the number of images |
| ImageRelay.GateCoversHold | api/app/services/image_relay.py:97-108 | a gated hold leaves the wallet non-negative if no period ends in between |
| ImageRelay.GateCanBeOutrun | api/app/services/image_relay.py:97-108 | a row that ends between gate and hold makes the hold overdraw |
| ImageRelay.RefundSettles | api/app/services/image_relay.py:133-137 | hold and refund together cost exactly the actual price, or nothing if it is negative |
| ImageRelay.ChargeSettles | api/app/services/image_relay.py:138-142 | hold and further charge together cost exactly the actual price |
| ImageRelay.Attempt | api/app/services/image_relay.py:104-170 | one attempt costs the actual price if it delivers and nothing otherwise |
| ImageRelay.HeldAndCharged | api/app/services/image_relay.py:92-132 | held is the quote for the images requested, charged in the end the reported usage or the quote for the images delivered |
| ImageRelay.NegativeCostIff | api/app/services/image_relay.py:121-132 | the logged cost is negative if and only if the model is billed by tokens and the upstream reports that negative a usage |
| ImageRelay.NegativeCostIsLogged | api/app/services/image_relay.py:121-132 | a reply whose logged cost is minus one cent |
| ImageRelay.ExecuteImageRelay | api/app/services/image_relay.py:52-193 | for any chain, replies and clock: worth falls by exactly the logged cost (not below zero), by nothing on total failure or refusal, the log is the first delivering candidate's, and no hold overdraws |
| QuotaCache.MirrorMovesExistingKeys | api/app/services/quota_cache.py:213-253 | a mirror creates no wallet or quota key and moves existing ones by what was taken |
| QuotaCache.UnmarkedCoherentIff | api/app/api/v1/subscriptions.py:61-94 | a cancel, a closing or suspending renewal or an administrator's adjustment, none of which marks an invalidation, keeps the cache in step if and only if, judged before the write, nothing readable is given up, refunded, closed or adjusted |
| QuotaCache.StepCoherent | api/app/services/quota_cache.py:84-319 | every step but a harmful unmarked write keeps the exact drift equation between Redis and Postgres, and a hydration or invalidation restores it from any state |
| QuotaCache.RunCoherent | api/app/services/envoy/als_server.py:328-375 | in every interleaving from an empty cache the drift equation holds unless an unmarked write did harm since the last hydration or invalidation |
| QuotaCache.UndamagedByMarkedWrites | api/app/db/session.py:24-44 | so it always holds when every write marks its user |
| QuotaCache.CacheNeverFarAhead | api/app/services/quota_cache.py:84-319 | with no invalidation pending a readable counter exceeds Postgres by at most the charges waiting to be mirrored, and equals it when none waits or was overtaken, in every run not harmed by an unmarked write since the last hydration or invalidation |
| QuotaCache.OnlyHydrationCreatesKeys | api/app/services/quota_cache.py:208-218 | no step but hydration makes a wallet or quota key appear |
| QuotaCache.HydrateCoherent | api/app/services/quota_cache.py:84-120 | hydration makes every readable counter equal Postgres |
| QuotaCache.UnmarkedCancelLeavesQuotaVisible | api/app/api/v1/subscriptions.py:61-94 | hydrate, then cancel at once: the cache still shows the quota and is out of step |
| QuotaCache.CheckInStep | api/app/services/quota_cache.py:168-201 | the scan of a cache in step finds quota, misses on a negative row, or falls through to the wallet |
| QuotaCache.VerdictIff | api/app/services/quota_cache.py:168-201 | on a cache in step the fast verdict is the gate's over the listed rows if and only if these are not overdrawn |
| QuotaCache.RunVerdictIff | api/app/services/quota_cache.py:140-201 | the same in every run with nothing pending, waiting, late or harmed and every listed counter present; with nothing below zero it is what the fast check answers, lock or no lock |
| QuotaCache.FastPathAgreesIff | api/app/services/quota_cache.py:140-201 | right after hydration the fast check and Postgres agree in verdict and reason if and only if the user is not overdrawn: cap free, nothing left to spend, and wallet or an in-period row below zero |
| QuotaCache.FastPathAgrees | api/app/services/quota_cache.py:84-201 | so they agree for every user with no negative wallet or row |
| QuotaCache.MissIsLoaded | api/app/services/quota_cache.py:140-161 | a miss is answered by loading: with the lock the verdict is that of Postgres, unless the user is overdrawn, whatever the cache held |
| QuotaCache.KnownStands | api/app/services/quota_cache.py:140-165 | a first answer stands, and an empty cache without the lock lets the user through unless the key's cap is reached |
| QuotaCache.OverdrawnWalletIsLetThrough | api/app/services/quota_cache.py:156-161 | a negative wallet is refused by Postgres and allowed by the fast check |
| QuotaCache.Cache.ApplyCharge | api/app/services/quota_cache.py:221-253 | the mirror loop moves existing counters and the key counter as specified |
| QuotaCache.Cache.InvalidateUserQuota | api/app/services/quota_cache.py:306-319 | drops the wallet, the listing and the listed counters, and nothing else |
| QuotaCache.Cache.HydrateUserQuota | api/app/services/quota_cache.py:84-120 | with the lock, loads wallet and in-period rows; without it, nothing |
| QuotaCache.Cache.CheckQuota | api/app/services/quota_cache.py:168-201 | the loop answers as specified |
| QuotaCache.Cache.HasQuota | api/app/services/quota_cache.py:140-165 | check, hydrate on a miss, check again, allow a second miss |
| AdsStream.StepWithinBudget | api/app/services/envoy/xds_server.py:329-431 | each step keeps sends plus what is owed within one plus rejections plus changes |
| AdsStream.SendsAreBounded | api/app/services/envoy/xds_server.py:322-431 | in every run a type is sent at most once plus its rejections plus its content changes, for any hash |
| AdsStream.NoAckLoop | api/app/services/envoy/xds_server.py:351-358 | with constant content and no rejection no type is sent twice |
| AdsStream.NoWakeUpIsLost | api/app/services/envoy/xds_server.py:375-431 | pending types are subscribed and have the event set; when a wake's sends are done each of its types is current or rejected and pending |
| AdsStream.NothingIsForgotten | api/app/services/envoy/xds_server.py:329-431 | an unsent or rejected type stays scheduled until sent; a stream at rest has sent every known subscribed type, unrejected |
| AdsStream.UpToDateIff | api/app/services/envoy/xds_server.py:395-431 | in every run, when a wake's sends are done, a known type not rejected since shows the version just built if and only if it was pending at the wake, or nothing was and it was subscribed, or it showed that version already |
| AdsStream.WakeTakesWork | api/app/services/envoy/xds_server.py:395-405 | a wake of a subscribed stream takes up the pending types or, with none pending, all it is subscribed to |
| AdsStream.NotifyDelivers | api/app/services/envoy/xds_server.py:386-431 | from every run that left the stream at rest a notification leads to a build and back to rest with every subscribed known type at the version built |
| AdsStream.QuietWakeServesAll | api/app/services/envoy/xds_server.py:395-431 | whatever the reader does meanwhile, a wake with nothing pending brings every known type subscribed and not rejected since to the version built |
| AdsStream.RequestChanges | api/app/services/envoy/xds_server.py:329-358 | what a request changes, type by type: subscription, pending, version forgotten, event |
| AdsStream.AckIsQuiet | api/app/services/envoy/xds_server.py:351-355 | the acknowledgement of the response just sent changes nothing |
| AdsStream.OnlyKnownTypesSent | api/app/services/envoy/xds_server.py:50-54 | in every run only cluster, listener and route types are sent |
| AdsStream.NotifyCanBeAbsorbed | api/app/services/envoy/xds_server.py:395-401 | whenever content changes there is a run in which the change is notified and built, yet the stream comes to rest showing the old version |
| AdsStream.AdsService.constructor | api/app/services/envoy/xds_server.py:312-378 | a new stream has its first type pending and the event set |
| AdsStream.AdsService.ProcessRequest | api/app/services/envoy/xds_server.py:329-358 | requests are classified as specified |
| AdsStream.AdsService.LocalNotify | api/app/services/envoy/xds_server.py:70-75 | a notification only sets the event |
| AdsStream.AdsService.TakeWork | api/app/services/envoy/xds_server.py:386-405 | the work of a wake, with pending cleared |
| AdsStream.AdsService.ResourcesBuilt | api/app/services/envoy/xds_server.py:406-408 | the resources awaited are those this wake sends |
| AdsStream.AdsService.PushType | api/app/services/envoy/xds_server.py:408-428 | a response goes out exactly for a known type whose version changed |
| KeyWindow.NextQuotaWindow | api/app/services/api_key.py:24-38 | a window ends after it starts, within 31 days |
| KeyWindow.Roll | api/app/services/api_key.py:77-87 | the window reached holds now |
| KeyWindow.RollFixed | api/app/services/api_key.py:77-87 | day and week windows: whole lengths after the old end |
| KeyWindow.RollMonthly | api/app/services/api_key.py:77-87 | month windows: from the later of old end and first of the month to the next boundary |
| KeyWindow.RollTwice | api/app/services/api_key.py:77-87 | rolling earlier first does not change the window |
| KeyWindow.RollAllIsRollOnce | api/app/services/api_key.py:70-90 | a key rolled at any advancing instants holds the window of one rolled once, so idle and busy keys agree |
| KeyWindow.EnforceMeaning | api/app/services/api_key.py:47-90 | a key is refused if and only if it is active and its expiry has come, and then only its status changes; else a finished window becomes one that holds now, whole periods on, with nothing used; else nothing changes |
| KeyWindow.SnapshotHoldsRow | api/app/services/api_key_cache.py:76-88 | a snapshot holds all of a row but its usage |
| KeyWindow.CachedMeaning | api/app/services/api_key.py:93-162 | when the cached path asks for the row, when it is not found, and which snapshot is then in use |
| KeyWindow.FreshSnapshotAgrees | api/app/services/api_key.py:93-162 | with a current snapshot the cached path gives the uncached verdict, row and snapshot |
| KeyWindow.StaleSnapshotAgreesIff | api/app/services/api_key.py:93-162 | for any snapshot, exactly when both paths leave the same row |
| KeyWindow.StaleSnapshotSkipsRoll | api/app/services/api_key.py:93-162 | a snapshot with a later window end leaves a window that is over unrolled and its usage standing |
| KeyWindow.StaleSnapshotIsSafe | api/app/services/api_key.py:130-149 | a stale snapshot never zeroes an open window's usage and never expires a row early |
| KeyWindow.KeyRow.RollForward | api/app/services/api_key.py:77-88 | the fast-forward loop ends, at the specified window |
| KeyWindow.KeyRow.EnforceKeyState | api/app/services/api_key.py:47-90 | the uncached check is the specified one |
| KeyWindow.KeyRow.EnforceKeyStateCached | api/app/services/api_key.py:93-162 | the cached check is the specified one |
| TtlCache.CacheRefinesMap | api/app/core/ttl_cache.py:30-53 | size within bounds; a hit is the last value set, not popped or cleared, younger than the ttl; such a value is found unless maxsize others were touched since |
| TtlCache.RunShaped | api/app/core/ttl_cache.py:30-53 | over every run keys are distinct, entries faithful and ordered by recency |
| TtlCache.RunGoneForReason | api/app/core/ttl_cache.py:30-53 | a key set and not popped is gone only by expiry or after maxsize other touches |
| TtlCache.Cache.Get | api/app/core/ttl_cache.py:30-39 | a lookup and its effect on the order |
| TtlCache.Cache.Set | api/app/core/ttl_cache.py:41-47 | insertion at the end and trimming from the front |
| TtlCache.Cache.Pop | api/app/core/ttl_cache.py:49-50 | removes the key only |
| TtlCache.Cache.Clear | api/app/core/ttl_cache.py:52-53 | removes everything |
| RateLimit.BucketBound | api/app/services/quota.py:13-21 | a bucket lets through exactly its first requests up to the limit |
| RateLimit.AtMostTwiceTheLimit | api/app/services/quota.py:13-21 | at most twice the limit in any closed minute, one less in a half-open one |
| RateLimit.TwiceTheLimitIsReached | api/app/services/quota.py:13-21 | the bound is attained for every limit |
| RateLimit.Limiter.RateLimit | api/app/services/quota.py:13-21 | increment, restart after expiry, compare with the limit or the default |
| Framing.SplitAppend | api/app/services/protocols/chat.py:133-135 | later text only extends the leftover; frames already found stay |
| Framing.LeftoverHasNoSep | api/app/services/protocols/chat.py:134-135 | the kept buffer never holds a blank line |
| Framing.SplitJoins | api/app/services/protocols/chat.py:133-135 | frames, blank lines and leftover make up the text again, each frame ending at the first blank line |
| Framing.LinesHaveNoBreaks | api/app/services/protocols/chat.py:138-139 | the lines of a frame hold no line break |
| Framing.LinesHoldTheText | api/app/services/protocols/chat.py:138-139 | nothing of a frame but its line breaks is missing in its lines |
| Framing.ChunkingIsIrrelevant | api/app/services/protocols/chat.py:131-166 | for any frame handler, feeding chunks one by one gives the events and state of feeding the text whole |
| Framing.DrainBuffer | api/app/services/protocols/openai_responses.py:271-295 | the split-one loop computes what the split-all parser computes |
| ChatStream.AbsorbAllMeaning | api/app/services/protocols/chat.py:149-165 | objects become one opening, their non-empty texts in order, and the last counts and stop reason |
| ChatStream.StreamIsOneMessage | api/app/services/protocols/chat.py:119-206 | for any decoder and any chunks the output is one well-formed message |
| ChatStream.CountsAreTheLastReported | api/app/services/protocols/chat.py:149-152 | the token counts are the last non-zero ones reported |
| ChatStream.StopIsTheLastGiven | api/app/services/protocols/chat.py:247-254 | the stop reason is Anthropic's name for the last finish reason given |
| ChatStream.ContentsInOrder | api/app/services/protocols/chat.py:157-165 | texts appear in the order of their chunks |
| ChatStream.OpeningShowsPrompt | api/app/services/protocols/chat.py:182-206 | the opening shows the prompt tokens known when the first text arrived |
| ChatStream.LineCarries | api/app/services/protocols/chat.py:139-148 | a data line is decoded, the end marker and other lines are skipped |
| ChatStream.PrintedChatIsOneMessage | api/app/services/protocols/chat.py:108-206 | a chat stream printed chunk by chunk and cut anywhere becomes the one message of its chunks |
| ChatStream.OpenAIToAnthropicStream.constructor | api/app/services/protocols/chat.py:120-129 | a fresh converter has an empty buffer and nothing started |
| ChatStream.OpenAIToAnthropicStream.FeedObject | api/app/services/protocols/chat.py:149-165 | one decoded chunk updates counters and emits as specified |
| ChatStream.OpenAIToAnthropicStream.FeedPart | api/app/services/protocols/chat.py:137-148 | the line loop handles a frame as specified |
| ChatStream.OpenAIToAnthropicStream.FeedChunk | api/app/services/protocols/chat.py:131-166 | a chunk is fed as specified |
| ChatStream.OpenAIToAnthropicStream.FinishStream | api/app/services/protocols/chat.py:168-180 | the closing events |
| ResponsesStream.ChatToResponses | api/app/services/protocols/openai_responses.py:133-173 | created, item, part, deltas, three dones, completed, with the joined text and last counts |
| ResponsesStream.TextsInOrder | api/app/services/protocols/openai_responses.py:147-149 | texts are those of the chunks, in order |
| ResponsesStream.ResponsesCanBeFollowed | api/app/services/protocols/openai_responses.py:150-173 | every result is accepted by an independent reader of the event order, which ends with the joined text and the last counts |
| ResponsesStream.ReadEvent | api/app/services/protocols/openai_responses.py:276-295 | data lines joined and decoded; a done marker discards the frame |
| ResponsesStream.ResponsesToChat | api/app/services/protocols/openai_responses.py:176-206 | the loop over chunks is the specified incremental reader |
| ResponsesStream.CleanEventSurvives | api/app/services/protocols/openai_responses.py:309-310 | a printed event without wide line breaks reads back as itself |
| ResponsesStream.BrokenEventIsLost | api/app/services/protocols/openai_responses.py:278-293 | a printed event with one is dropped by the reader |
| ResponsesStream.ThereAndBack | api/app/services/protocols/openai_responses.py:133-206 | chat to Responses text, cut anywhere, and back: exactly the texts without wide line breaks return, in order; all of them and the token counts if and only if none has one, else both counts come back as zero |
| CodecWitness.CodecExists | api/app/services/protocols/openai_responses.py:309-310 | a codec with the assumed properties exists |
| Payload.DataUrlRoundTripIff | api/app/services/providers/anthropic.py:39-47 | a data URL gives type and data back if and only if both are there and the type has no comma or semicolon |
| Payload.UrlBecomes | api/app/services/providers/anthropic.py:39-47 | an image url becomes base64 exactly if it is such a data URL, with which type and data, else a link; only an empty one is dropped |
| Payload.BlockForOpenAI | api/app/services/protocols/chat.py:214-231 | what each kind of block becomes towards OpenAI |
| Payload.BlockForAnthropic | api/app/services/providers/anthropic.py:21-36 | what each kind of block becomes towards Anthropic, ordinary links included |
| Payload.TextIsKept | api/app/services/providers/anthropic.py:21-36 | neither converter adds, drops or reorders text |
| Payload.BlockReturnsIff | api/app/services/protocols/chat.py:214-231 | a block comes back unchanged if and only if it is text or a printable base64 image without further keys, or of a type both converters pass on |
| Payload.BlocksReturnIff | api/app/services/providers/anthropic.py:21-36 | a block list comes back unchanged if and only if each block does |
| Payload.ContentReturnsIff | api/app/services/protocols/chat.py:209-232 | strings and non-empty lists of kept blocks come back, nothing else |
| Payload.RequestReturnsIff | api/app/services/protocols/chat.py:50-83 | Anthropic to OpenAI and back is the identity on exactly the listed requests, model name, stream flag and the absence of further keys included |
| Payload.RequestForOpenAI | api/app/services/protocols/chat.py:50-83 | the chat request of any Anthropic request: system message first, turns one by one, settings as given |
| Payload.BodySettings | api/app/services/providers/anthropic.py:66-79 | token limits and stop lists by their precedence, a single stop string as a list of one, the rest as given |
| Payload.OneMoreMessage | api/app/services/providers/anthropic.py:54-71 | one more message appends to the system text after a blank line or to the turns, or is dropped |
| Payload.AnthropicBlocksToOpenAI | api/app/services/protocols/chat.py:213-231 | the block loop towards OpenAI |
| Payload.OpenAIBlocksToAnthropic | api/app/services/providers/anthropic.py:21-35 | the block loop towards Anthropic |
| Payload.OpenAIToAnthropic | api/app/services/providers/anthropic.py:50-79 | the message loop, token limit and stop list, and the body it builds for the upstream |
| Routing.UsablePairsServe | api/app/services/providers/router.py:65-79 | exactly the targets whose model and channel are enabled |
| Routing.UsableInOrder | api/app/services/providers/router.py:65-79 | they come in the order of the targets |
| Routing.OrderedTargets | api/app/services/providers/router.py:65-79 | the loop keeps these, in order |
| Routing.WeightedPick | api/app/services/providers/router.py:303-314 | the first pair whose running weight reaches the draw, the first without weights, the last beyond the total |
| Routing.ZeroWeightNeverPicked | api/app/services/providers/router.py:303-314 | the pair picked has weight, and the draw lies within that weight after the pairs before it |
| Routing.TotalWeight | api/app/services/providers/router.py:303-306 | running weights add up the targets' weights, negative ones as zero |
| Routing.FirstOfEachDistinct | api/app/services/providers/router.py:323-330 | the deduplicated pairs have distinct models and miss none |
| Routing.FirstOfEachPrefix | api/app/services/providers/router.py:323-330 | they are the first of each model, in order |
| Routing.UniqueModels | api/app/services/providers/router.py:323-330 | the loop keeps the first pair of each model |
| Routing.RoundRobinIsFair | api/app/services/providers/router.py:343-344 | over as many consecutive cursors as there are distinct models, each model is picked exactly once |
| Routing.SmartPick | api/app/services/providers/router.py:288-300 | drawn by weight among the pairs of the label gone by |
| Routing.SmartPrimary | api/app/services/providers/router.py:288-300 | its label is the chosen one if some target has it, else the default; none is picked if and only if no target has either |
| Routing.LabelOfTag | api/app/services/providers/router.py:82-87 | the label of a target: its tag, or the default without one or with a blank one |
| Routing.SelectRoute | api/app/services/providers/router.py:350-387 | the primary the strategy picks among the usable pairs, by weight, rotation or label, then the fallback if and only if it serves and is another model; all enabled and distinct |
| Routing.AtoiItoa | api/app/services/envoy/ext_proc_server.py:282-288 | decimal ids read back |
| Routing.ChainReadsBack | api/app/api/internal/translate.py:83-98 | a printed chain of distinct pairs reads back in order, and its serving pairs are all of it if and only if every row serves |
| Routing.ItemReadIff | api/app/api/internal/translate.py:84-86 | an item is read if and only if, stripped, it is two runs of digits around a colon |
| Routing.PaddedItemReads | api/app/api/internal/translate.py:84 | space around an item is ignored |
| Routing.ReadItemsOnce | api/app/api/internal/translate.py:83-91 | the ids read are those of the readable items, each once |
| Routing.ReadItemsPrefix | api/app/api/internal/translate.py:83-91 | in the order of their first item |
| Routing.ServingInOrder | api/app/api/internal/translate.py:92-96 | those that serve are kept in order |
| Routing.ReadChain | api/app/api/internal/translate.py:83-96 | readable, first-seen items whose rows serve, in order |
| Routing.LoadCandidates | api/app/api/internal/translate.py:75-105 | the chain's serving items, or else one candidate from the single headers, with the code's refusals |
| Routing.HeadersReadBack | api/app/services/envoy/ext_proc_server.py:264-281 | from the headers printed for a chain the translator loads the chain's pairs that still serve, in order, or, if none does, the primary on its channel alone |
| Routing.OnlyServingTriedIff | api/app/api/internal/translate.py:97-105 | only serving pairs are tried if and only if some pair of the chain serves, the primary's channel is down, or the primary has no upstream name |
| Routing.AllTriedIff | api/app/api/internal/translate.py:83-105 | the whole chain is tried, in order, if and only if all of it serves, or it is one pair whose channel is up and whose model is still there with a name |
| Routing.DisabledModelIsTried | api/app/api/internal/translate.py:66-72 | a pair whose model was disabled after selection is still tried |
| Routing.RouteRequest | api/app/services/envoy/ext_proc_server.py:256-282 | end to end with the rows changing between selection and loading: what is tried is what becomes of the selected chain, all of it while it serves; an empty selection is refused |

## Left out

- Split hydration (a commit and its mirror between reading Postgres and writing Redis): hydration is one step here, and the drift equation needs that.
- Redis failures and exception paths, row-lock races between transactions, session synchronisation of the ORM.
- The per-key usage counter in the coherence invariant: invalidation never drops it and a mirror may create it short.
- Expiry of cached subscriptions by the clock: the check ignores the listing's end times, so a verdict is about the rows listed at the last hydration.
- apply_topup, apply_grant, apply_renew and apply_sub_expire of the quota cache: nothing calls them.
- Renewal refills, closings and admin balance adjustments in the transaction-sum theorem: they change quota without a matching row, or clamp.
- Timestamps and texts of rows (canceled_at, last_renewal_error, notes, reference ids) and the order row of a purchase.
- Overlapping ADS streams of one node: a closing stream also unregisters a newer one; one stream per node is modelled.
- Rendering of Envoy resources, protobuf packing and hashing: a version is any function of the resources.
- Decoding of bytes into text: chunks are text cut at character boundaries. JSON values that are not objects, on which the chat converter raises, are not modelled.
- Unicode digits in the chain header: digits are ASCII, as the printing side produces them.
- The HTTP adapters behind every upstream call, and which of the tried candidates answers.
- Parsing of image request parameters, embedding scores, regular-expression rules and GeoIP lookups: their results are inputs.
- Years beyond 9999, on which the code's datetime raises.
- The snapshot cache's load path and its pub/sub eviction, which add nothing to the cache proved in `TtlCache.dfy`.
- Web and admin front ends, schemas, migrations, authentication, payment stubs, logging.
