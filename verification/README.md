# Verified model of the AgntSpark gateway

The gateway runs AI agents as containers for its accounts. It routes public
calls to them through rate limits, meters what they use, holds each account to
its plan, and keeps plans in step with Stripe. This project models those parts
in Dafny and proves what they keep over whole runs: every history of hits,
every interleaving of calls and flushes, every order of webhook events.

State that the gateway updates in place is a class whose methods are proved
equal to a step function on values. The main results are lemmas about runs of
those step functions. What the gateway asks of the outside (the clock, the
container runtime, Stripe, the database's answers) is an input of a step, so a
lemma holds for everything the outside may answer, within the conditions it
states.

| module | models |
|---|---|
| `Limiter` | the fixed-window rate limiter |
| `Metering` | pending request counts, the flush, hour buckets, period totals |
| `Hostnames` | slugs, public hosts, and reading the slug back from a host |
| `Plans`, `Quota` | plan limits and the quota checks |
| `Fleet` | create, deploy, scale, delete and the scheduler's sync, over all accounts: rows, and containers with the shape they run in |
| `Requests` | what each request is answered and leaves, for every end the runtime may give it |
| `PlanSafety`, `PlanOverruns` | accounts within their plans over runs of requests; the exact conditions, and a run for each way out |
| `Scheduler`, `MeteredRuns` | the tick, its clock, what it does for each agent and what it meters |
| `AutoScaling`, `CeilingRuns` | auto-scaling over runs of ticks, and how far it can go |
| `FleetRuns`, `StaleRuns` | requests between and during ticks that hold the rows they loaded, and what comes of old rows |
| `Measures`, `RunBounds`, `MixedRuns` | how much an account can have running over such runs, by containers, vCPU and memory |
| `Ingress`, `IngressAnswers`, `Gateway` | the routing endpoint, what each call is answered, and routing and metering together |
| `Billing`, `BillingAnswers` | Stripe events, over runs and one by one |
| `CustomerRuns`, `LateWrites` | users found by their Stripe customer, and events that wait for Stripe between fetching and writing |
| `Invites` | registration with invites, as interleaved transactions |
| `Environment` | an agent's environment across redeploys |
| `Basics`, `Sums` | optional values, sums over a map, repeated addition |

`Times(n, x)` is x added n times; `Sums.TimesIsProduct` says that it is the
product. Instants and amounts are `real`, hours are whole numbers of hours since
the epoch, and `usage_hours` is a map from (agent, hour) to a row.

## Where the code and its own words differ

The model follows the code in each case.

- `scheduler.py:93` says that auto-scaling stays within an account's plan.
  The headroom test counts stored replicas, which lag the live ones until the
  next tick. `CeilingRuns.NeverPastPlanIff` proves that the claim holds of
  accounts with a given number of auto-scaling agents exactly when that number is
  at most one, for every number of agents that the plan allows.
  `AutoScaling.VisitKeepsPlanIff` says exactly when one visit keeps to the plan.
  `AutoScaling.OvershootBounded` bounds the excess by one replica for each
  auto-scaling agent but one, and `CeilingRuns.CeilingIsMet` reaches that bound on
  every plan. Requests add to it, because a tick reads the rows it
  loaded at its start: `MixedRuns.MixedRunsBounded` bounds what runs by the plan
  and one replica for each auto-scaling agent if requests come between ticks,
  two if they come during them, and `StaleRuns.StaleBoundIsMet` is a run that
  reaches the second bound.
- `services/quota_service.py:3-4` says that refusals have no side
  effects. That is proved of creation (`Fleet.CreateIsAllOrNothing`). A redeploy
  refused for lack of an image has already written its row, and
  `PlanSafety.RefusedRedeploySafeIff` says exactly when that is safe: when it asks
  for at least the replicas, the vCPU and the memory that run.
- `plans.py:4` says that an action past the plan is refused. Scaling down is
  never checked, and scaling an inactive agent up is checked against a row that
  may count fewer replicas than run; `PlanSafety.ScaleSafeIff` says exactly when
  either is safe. A scale up that raises leaves its row behind;
  `PlanSafety.RaisedScaleSafeIff` says exactly when that is safe. `PlanOverruns`
  has a run past the plan for each.
- `services/billing_service.py:4-5` says that the plan follows the subscription.
  A completed checkout is applied from its snapshot. `Billing.CheckoutKeepsIff`
  says exactly when the rows stay right about every subscription whose status is
  settled, for paid, free and unpaid checkouts. `Billing.CheckoutPlanIff` says
  when the plan itself is right afterwards.
- `services/billing_service.py:106-111` says that fetching the subscription keeps
  a late event from dropping a paying customer to free. The row is written after
  the fetch has been awaited, so another event can be fetched and written in
  between. `LateWrites.WritePlanIff` says exactly when a late write leaves the plan
  right, and `LateWrites.LateWriteDropsPayingUser` is a run in which it does not.
- `services/billing_service.py:4-5` again, of a subscription made outside
  checkout: its user is found by the customer on record, which an event with
  another customer replaces. `CustomerRuns.CustomerKeptIff` says exactly when the
  customer stays, and `CustomerRuns.SecondCustomerHidesTheFirst` is a run in which
  the end of a subscription is then missed.
- `models/agent.py:57-63` says that a row's replica count follows the containers.
  A row scaled to none keeps its old count until the next tick;
  `Requests.ScaledRowExactIff` says exactly when a scaling leaves its row exact.
- `main.py:39` means to lose no counts at shutdown, and
  `services/metering_service.py:95-96` says that a failed flush puts its counts
  back. `Metering.FailedFlushRestoresIff` says exactly when one does: not when it
  is cancelled, and not when its rollback raises too. `Metering.RequestsConserved`
  accounts for everything else.

## Model

| member | source | states |
|---|---|---|
| `Limiter.FixedWindowLimiter.constructor` | agntspark_gateway/security/ingress_limits.py:23-27 | A new limiter has counted nothing |
| `Limiter.FixedWindowLimiter.Hit` | agntspark_gateway/security/ingress_limits.py:29-44 | The in-place table and the verdict are those of the value-level hit, including the clearing at any window change |
| `Limiter.RetryAfterIsExact` | agntspark_gateway/security/ingress_limits.py:35-42 | A refusal names the least whole number of seconds, between 1 and the window, after which the next window has begun |
| `Limiter.LimiterRefinesHistory` | agntspark_gateway/security/ingress_limits.py:29-44 | With a clock that never steps back, a hit is admitted exactly when fewer than its limit were admitted for its key and window, counted from the history alone |
| `Limiter.ClockStepBackReopensWindow` | agntspark_gateway/security/ingress_limits.py:35-39 | The clock condition is needed: a step back admits a hit into a spent window |
| `Limiter.RetryIsAdmitted` | agntspark_gateway/security/ingress_limits.py:35-42 | A refused caller who waits as told, with no one else on its key, is admitted |
| `Limiter.IntervalBound` | agntspark_gateway/security/ingress_limits.py:16-21 | Any interval as long as n windows admits at most n + 1 limits of one key |
| `Limiter.IntervalBoundIsMet` | agntspark_gateway/security/ingress_limits.py:16-21 | That bound is attained for every window size, limit and n |
| `Metering.UsageMeter.CountRequest` | agntspark_gateway/services/metering_service.py:79-81 | One more pending unit for the agent, its owner and the hour |
| `Metering.UsageMeter.TakeBatch` | agntspark_gateway/services/metering_service.py:98-103 | The whole counter moves into the batch |
| `Metering.UsageMeter.WriteBatch` | agntspark_gateway/services/metering_service.py:105-129 | Each kept unit is added to its bucket once; units of accounts that no longer exist are left out |
| `Metering.UsageMeter.RestoreBatch` | agntspark_gateway/services/metering_service.py:130-133 | After a failure the batch joins whatever was counted meanwhile |
| `Metering.UsageMeter.Record` | agntspark_gateway/services/metering_service.py:50-76 | No row for no replicas or no time; otherwise one insert-or-add into the instant's hour |
| `Metering.StepConserves` | agntspark_gateway/services/metering_service.py:92-134 | Every step of counting, flushing, failing, being cancelled, recording and deleting an account moves requests from place to place, or takes out exactly what the trace of steps says is gone |
| `Metering.RequestsConserved` | agntspark_gateway/services/metering_service.py:92-134 | For every interleaving, per agent and hour: what the trace counted is what is waiting, in flight or stored, and what the trace says was dropped, lost or erased |
| `Metering.FailedFlushRestoresIff` | agntspark_gateway/services/metering_service.py:130-133 | A flush that does not commit keeps every request exactly when its exception is handled and its rollback succeeds, or it had none |
| `Metering.DroppedAccountsWereMissing` | agntspark_gateway/services/metering_service.py:106-115 | Nothing is dropped for an account found at every commit |
| `Metering.RequestsAdded` | agntspark_gateway/services/metering_service.py:113-129 | A bucket's request column grows by the number of units written to it, over all users |
| `Metering.BucketIsSum` | agntspark_gateway/services/metering_service.py:50-76 | A bucket exists exactly when some entry fell in it, and holds the sum of those entries |
| `Metering.BucketKeepsItsOwner` | agntspark_gateway/services/metering_service.py:50-76 | A bucket stays its first writer's, whoever adds to it later |
| `Metering.InterleavingsAgree` | agntspark_gateway/services/metering_service.py:68-76 | Any order of the same entries leaves the same table |
| `Metering.TotalsRefineLog` | agntspark_gateway/services/metering_service.py:137-160 | Over hour-aligned bounds, totals of the buckets equal totals of the raw entries by their own instants |
| `Metering.MonthStartIsOnTheHour` | agntspark_gateway/services/metering_service.py:41-43 | The month starts on an hour, so the bound condition is met |
| `Metering.MonthStartCountsDays` | agntspark_gateway/services/metering_service.py:41-43 | The month starts at the midnight from which the instant lies in the day of that number |
| `Metering.MonthTotalsRefineLog` | agntspark_gateway/services/metering_service.py:137-160 | The month's totals are those of the raw entries since the month began |
| `Metering.PeriodsAddUp` | agntspark_gateway/services/metering_service.py:137-160 | Totals of adjacent hour-aligned periods add up to the total of both |
| `Hostnames.SlugIsDnsLabel` | agntspark_gateway/services/agent_service.py:60-69 | Whatever the name, its slug is a DNS label of at most 47 characters with no doubled hyphen |
| `Hostnames.SlugSpellsName` | agntspark_gateway/services/agent_service.py:60-69 | The slug spells a nonempty prefix of the name's letters and digits, or "agent" when there are none |
| `Hostnames.TidyNamesAreKept` | agntspark_gateway/services/agent_service.py:60-69 | A name that is already a short tidy label is kept letter for letter |
| `Hostnames.SlugIsHostLabel` | agntspark_gateway/services/agent_service.py:60-69 | Every slug is a label that the host parser can return |
| `Hostnames.ParserInvertsPrinter` | agntspark_gateway/routers/ingress.py:44-56 | The parser returns a label exactly for the spellings of that label's public host |
| `Hostnames.SpellingsAgree` | agntspark_gateway/routers/ingress.py:49-50 | Letter case, trailing dots and a port do not matter |
| `Hostnames.RoundTrip` | agntspark_gateway/services/agent_service.py:72-75 | However a client spells an agent's public host, the ingress recovers its slug |
| `Hostnames.ColonBaseNeverMatches` | agntspark_gateway/routers/ingress.py:44-56 | A base domain with a port matches no host |
| `Hostnames.DotsBaseNeverMatches` | agntspark_gateway/routers/ingress.py:44-56 | A base domain of dots only matches no host |
| `Hostnames.RoundTripIff` | agntspark_gateway/routers/ingress.py:44-56 | Printed hosts come back exactly when the base domain has no colon and something besides dots |
| `Quota.CurrentUsage` | agntspark_gateway/services/quota_service.py:46-63 | The account's agents, and its active replicas, vCPU and memory without the excluded agent, summed row by row |
| `Quota.EnsureCanCreateAgent` | agntspark_gateway/services/quota_service.py:71-80 | The agent-count check, with admins exempt and unknown users rejected |
| `Quota.EnsureResources` | agntspark_gateway/services/quota_service.py:83-124 | The first limit passed, in the order the code tests them, is the one reported |
| `Quota.NearestEven` | agntspark_gateway/services/quota_service.py:117-121 | Rounding as Python's `round` moves a number by at most a half |
| `Quota.TiesGoToEven` | agntspark_gateway/services/quota_service.py:117-121 | It takes a tie to the even side |
| `Quota.RoundedTotal` | agntspark_gateway/services/quota_service.py:114-121 | The two roundings in the vCPU test move the total by at most a thousandth |
| `Quota.AdmittedFits` | agntspark_gateway/services/quota_service.py:83-124 | An admitted request fits the exact totals: replicas and memory exactly, vCPU to within a thousandth |
| `Quota.RefusedDoesNotFit` | agntspark_gateway/services/quota_service.py:83-124 | Every refusal names a limit that the exact totals would pass, to the same rounding |
| `Quota.CreateRefusedIff` | agntspark_gateway/services/quota_service.py:71-80 | One more agent is refused exactly to a known account, no admin's, that has as many as its plan allows |
| `Quota.RefusalNamesFirstLimit` | agntspark_gateway/services/quota_service.py:97-124 | No admin is refused; a refusal names the first limit that the exact totals pass, vCPU to within a thousandth |
| `Fleet.AgentService.CreateAgent` | agntspark_gateway/services/agent_service.py:198-241 | Row, containers with their shape, and reply of a create, for every outcome of the runtime |
| `Fleet.AgentService.DeployAgent` | agntspark_gateway/services/agent_service.py:298-353 | Row, containers with their shape, and reply of a deploy, including the refusal after the row is written |
| `Fleet.AgentService.ScaleAgent` | agntspark_gateway/services/agent_service.py:365-404 | Row, containers and reply of a scale; only scaling up is checked |
| `Fleet.AgentService.DeleteAgent` | agntspark_gateway/services/agent_service.py:356-362 | Removing an agent in place is the value-level delete, of which `Requests.DeleteAnswers` says what it leaves |
| `Fleet.CreateIsAllOrNothing` | agntspark_gateway/services/agent_service.py:198-241 | A refused create changes nothing, and a create that passes both checks is not refused by the deploy inside it |
| `Fleet.AddedRowCheck` | agntspark_gateway/services/quota_service.py:92-114 | With its own row excluded, an inserted agent is judged as before it was inserted |
| `Fleet.AccountsAreIsolated` | agntspark_gateway/services/agent_service.py:244-249 | No run of others' requests changes an account's agent |
| `Requests.DeleteAnswers` | agntspark_gateway/services/agent_service.py:356-362 | Exactly the owner's delete, if the runtime removes the containers, is answered Done and leaves neither row nor containers; every other agent is as it was |
| `Requests.DeleteFrees` | agntspark_gateway/services/agent_service.py:356-362 | It gives the owner back one agent, and the replicas, vCPU and memory of the row if it was active |
| `Requests.DeletedStaysGone` | agntspark_gateway/services/agent_service.py:244-249 | Until its id is created again, every deploy, scale and delete of a deleted agent finds nothing, over any run |
| `Requests.DeployAnswers` | agntspark_gateway/services/agent_service.py:298-353 | A deploy is answered Done exactly to the owner, within the plan, with something to run that the runtime starts; then the row says exactly what runs, in the shape asked for; not found or refused, it changes nothing |
| `Requests.CreateAnswers` | agntspark_gateway/services/agent_service.py:198-241 | A create without a deploy takes a place and nothing else; one with it leaves what a deploy does |
| `Requests.ScaleAnswers` | agntspark_gateway/services/agent_service.py:365-404 | Only the owner scales, only a scale up can be refused, and each end leaves its status and the containers the runtime left |
| `Requests.ScaledRowExactIff` | agntspark_gateway/services/agent_service.py:400-401 | A scaling answered Done leaves a row that says exactly what runs if and only if the containers had the row's shape and one is left, or the row counted none |
| `PlanSafety.SafeRunsWithin` | agntspark_gateway/plans.py:3-6 | In a safe account the containers that really run are within the plan, not only the rows |
| `PlanSafety.DeployIsSafe` | agntspark_gateway/services/agent_service.py:298-353 | A deploy by anyone keeps a limited account safe: its rows are within the plan and cover the containers of its active agents in number and shape |
| `PlanSafety.CreateIsSafe` | agntspark_gateway/services/agent_service.py:198-241 | So does a create |
| `PlanSafety.ScaleIsSafe` | agntspark_gateway/services/agent_service.py:365-404 | So does a scale, also of an inactive agent that the plan has room for |
| `PlanSafety.SyncIsSafe` | agntspark_gateway/scheduler.py:62-83 | So does a scheduler sync |
| `PlanSafety.StepIsSafe` | agntspark_gateway/services/quota_service.py:83-124 | So does every step |
| `PlanSafety.QuotaSafety` | agntspark_gateway/plans.py:1-8 | Over every run of requests and syncs by any accounts, a limited and careful account stays within its plan: its agents, the replicas, vCPU and memory of its active rows, and those of the containers its active agents really run |
| `PlanSafety.ScaleSafeIff` | agntspark_gateway/services/agent_service.py:377-404 | A scale past its check, up or down and of an agent in any status, is safe whatever it leaves exactly when the plan has room for all it may leave and the row still has its containers' shape |
| `PlanSafety.RaisedScaleSafeIff` | agntspark_gateway/services/agent_service.py:387-397 | One that may raise is safe exactly when the row already covers all it may start |
| `PlanSafety.RefusedRedeploySafeIff` | agntspark_gateway/services/agent_service.py:317-323 | A redeploy refused for lack of an image is safe exactly when it asks for at least the replicas, the vCPU and the memory that run |
| `PlanSafety.CreateRunsIff` | agntspark_gateway/services/quota_service.py:114-124 | An admitted create keeps what really runs within the plan exactly when it fits beside that, whatever the rows say |
| `PlanOverruns.SmallerRedeployPassesPlan` | agntspark_gateway/services/agent_service.py:317-323 | A refused redeploy that describes 1024 MB as 128 lets another 1024 MB in on a plan of 1536 |
| `PlanOverruns.FewerRedeployPassesPlan` | agntspark_gateway/services/agent_service.py:317-323 | So does one that describes three containers as one |
| `PlanOverruns.RaisedScaleUpPassesPlan` | agntspark_gateway/services/agent_service.py:390-397 | A scale up that raises after starting its containers lets others in beside them |
| `PlanOverruns.ScaleUpOfFailedAgentPassesPlan` | agntspark_gateway/services/agent_service.py:377-404 | After a scale up that failed with containers left, the next is admitted on the stored count and passes the plan |
| `PlanOverruns.ScaleDownOfCrashedAgentPassesPlan` | agntspark_gateway/services/agent_service.py:377-404 | An unchecked scale down of a crashed agent brings its replicas back past the plan |
| `Scheduler.ControlPlane.SyncRow` | agntspark_gateway/scheduler.py:62-83 | Replica count and status follow the live containers |
| `Scheduler.ControlPlane.AutoScale` | agntspark_gateway/scheduler.py:91-98 | Containers change only with headroom; an owner that cannot be found aborts the tick |
| `Scheduler.ControlPlane.VisitAgent` | agntspark_gateway/scheduler.py:55-98 | One agent's turn: sync, metering, auto-scaling |
| `Scheduler.ControlPlane.VisitAll` | agntspark_gateway/scheduler.py:55-98 | The turns of a tick in order, up to an abort |
| `Scheduler.ControlPlane.Tick` | agntspark_gateway/scheduler.py:38-98 | A whole tick: its flush succeeds, or puts its batch back unless the rollback raises too, and the turns follow either way |
| `Scheduler.ControlPlane.MeasureLoop` | agntspark_gateway/scheduler.py:101-116 | Each tick's seconds, from the starts alone |
| `Scheduler.TickUnroll` | agntspark_gateway/scheduler.py:55-98 | A turn leaves every other row alone, so a tick never visits an agent that became inactive, and an abort ends it |
| `Scheduler.MeteredTimeBounded` | agntspark_gateway/scheduler.py:101-116 | Whatever ticks fail, metered time is at most one interval more than real time |
| `Scheduler.MeteredTimeExact` | agntspark_gateway/scheduler.py:101-116 | With no gap over three intervals and no tick missed, it is exactly that |
| `Scheduler.HourSecondsBounded` | agntspark_gateway/scheduler.py:101-116 | The ticks of one wall-clock hour meter at most that hour, the clock lag and one capped gap |
| `Scheduler.TickRecords` | agntspark_gateway/scheduler.py:85-89 | A tick records for an agent nothing, or the containers its visit found for the tick's seconds with its owner and shape, once |
| `Scheduler.RunRecords` | agntspark_gateway/scheduler.py:85-89 | What a run of ticks records for an agent is its own log of ticks, whatever happens between them |
| `Scheduler.BucketBounded` | agntspark_gateway/scheduler.py:85-89 | Over every run of ticks, an agent's bucket holds at most one hour, the clock lag and one capped gap of the most containers that a visit found |
| `Scheduler.UsageIsReservation` | agntspark_gateway/services/metering_service.py:59-67 | Over every run of ticks in which an agent's row keeps its shape, vCPU and memory time of its buckets are its replica time in that shape |
| `MeteredRuns.TickForEach` | agntspark_gateway/scheduler.py:55-98 | What a tick does for each agent it reaches, from what its visit finds: the row's count and status, usage recorded exactly when the containers are found well, and the containers left |
| `MeteredRuns.TickCountsNoRequests` | agntspark_gateway/scheduler.py:85-89 | What a tick records counts no requests, so it is a step the request ledger allows |
| `MeteredRuns.UsageIsMetered` | agntspark_gateway/scheduler.py:85-116 | Over a run of ticks with no gap over three intervals, an agent whose r containers every tick finds well is recorded for exactly r times the time |
| `AutoScaling.TurnKeepsBound` | agntspark_gateway/services/quota_service.py:127-139 | A turn takes an account's live replicas no higher than they were or the ceiling |
| `AutoScaling.OvershootBounded` | agntspark_gateway/scheduler.py:91-98 | Over any number of ticks, stored counts lag live ones by at most one and live replicas stay under the ceiling |
| `AutoScaling.OneAutoScalerKeepsPlan` | agntspark_gateway/scheduler.py:91-98 | With at most one auto-scaling agent, live containers within the plan stay within it |
| `AutoScaling.SafeAccountStaysUnderCeiling` | agntspark_gateway/scheduler.py:91-98 | From an account that the quota checks kept safe, no run of ticks passes the ceiling |
| `AutoScaling.TickIsRun` | agntspark_gateway/scheduler.py:55-98 | Every tick, aborted or not, is such a run of turns |
| `AutoScaling.TickOvershoot` | agntspark_gateway/scheduler.py:38-98 | The bound for one whole tick |
| `AutoScaling.VisitKeepsPlanIff` | agntspark_gateway/services/quota_service.py:127-139 | A visit that passes the headroom test keeps the live containers within the plan, whatever the scaling leaves, exactly when one more fits beside the others' live containers |
| `CeilingRuns.CeilingIsMet` | agntspark_gateway/scheduler.py:91-98 | On every plan and for every number of auto-scaling agents below its replicas, one tick takes a safe account exactly to the ceiling |
| `CeilingRuns.FullCrowdPassesPlan` | agntspark_gateway/scheduler.py:91-98 | On every plan, with one auto-scaling agent for each of its replicas, a lost container lets the others pass the plan |
| `CeilingRuns.NeverPastPlanIff` | agntspark_gateway/scheduler.py:93-93 | On every plan and for every number of agents it allows, auto-scaling keeps safe accounts with that many auto-scaling agents within their plan exactly when it is at most one |
| `AutoScaling.TicksSettle` | agntspark_gateway/scheduler.py:62-83 | Ticks alone change an agent's status at most twice, and at most once after it has run |
| `AutoScaling.InactiveIsFinal` | agntspark_gateway/scheduler.py:52-55 | Without a request, an inactive agent's row is final: it is not metered and not scaled up |
| `FleetRuns.QuietTickIsTick` | agntspark_gateway/scheduler.py:52-98 | A tick whose rows are loaded once and which nothing interrupts does what the tick that reads every row afresh does |
| `Measures.LoadIsTotal` | agntspark_gateway/services/quota_service.py:58-63 | The three measures of what runs are the totals that plans limit, of containers instead of rows |
| `RunBounds.RequestEffect` | agntspark_gateway/services/agent_service.py:198-404 | A careful request, with rows that lag by a replica of each auto-scaling agent, leaves such rows, and no active agent running more than before or all of them within the plan and one replica for each auto-scaling agent, by containers, vCPU and memory |
| `RunBounds.AdmittedGrowth` | agntspark_gateway/services/quota_service.py:127-139 | So does a scaling that passes the headroom test, as long as the rows the tick loaded describe what runs |
| `MixedRuns.EventKeeps` | agntspark_gateway/scheduler.py:52-98 | Every event, a request, a visit from loaded rows, a container that dies, keeps an account described and bounded, and the tick's rows in step with it |
| `MixedRuns.MixedRunsBounded` | agntspark_gateway/scheduler.py:91-98 | Over every run of careful requests and ticks, an account runs no more, by containers, vCPU and memory, than at the start or than its plan and one replica for each auto-scaling agent if no request comes during a tick, two if any does |
| `MixedRuns.SafeStartStaysBounded` | agntspark_gateway/scheduler.py:91-98 | From a safe account, the plan is never passed by more than that |
| `StaleRuns.StaleBoundIsMet` | agntspark_gateway/scheduler.py:52-98 | A run on the pro plan with one auto-scaling agent in which a request during a tick takes the account to its plan and two |
| `StaleRuns.VisitRevivesIff` | agntspark_gateway/scheduler.py:70-83 | A visit makes an inactive agent active again exactly when its row was starting as the tick loaded it and its containers look well |
| `StaleRuns.StartingRowPassesPlan` | agntspark_gateway/scheduler.py:70-83 | A run in which that doubles what a safe account on the free plan may run, with no auto-scaling |
| `Ingress.IngressGate.constructor` | agntspark_gateway/security/ingress_limits.py:51-53 | Two separate fresh limiters over the shared counter |
| `Ingress.IngressGate.ArriveCall` | agntspark_gateway/routers/ingress.py:106-124 | The first half of a call, up to the wait for the access key: only the callers' table changes |
| `Ingress.IngressGate.FinishCall` | agntspark_gateway/routers/ingress.py:126-152 | The second half: only the agents' table and the counter change |
| `Ingress.IngressGate.Route` | agntspark_gateway/routers/ingress.py:98-152 | The response, both limiter tables and the counter after a call run alone, in the order the code checks |
| `Ingress.UnsplitCallIsRoute` | agntspark_gateway/routers/ingress.py:98-152 | A call whose halves nothing separates is a call run alone |
| `Ingress.NonInterference` | agntspark_gateway/routers/ingress.py:117-134 | However the halves of calls interleave, removing calls that cannot pass the access key and share no other caller's allowance changes no other response, no agent's allowance and no metered request |
| `Ingress.KeysAreInjective` | agntspark_gateway/routers/ingress.py:117-124 | A limiter key names one agent and one address |
| `Ingress.KeylessCallersDontInterfere` | agntspark_gateway/routers/ingress.py:117-139 | Keyless calls to a private agent change nothing for any other address, although all share tables that they clear |
| `IngressAnswers.ArrivalAnswer` | agntspark_gateway/routers/ingress.py:106-124 | After any schedule of calls, an arriving call is answered 403 without the token, 404 without an agent at its host, 429 with the least wait exactly when the calls its caller had admitted in the window reach the limit, and goes on otherwise |
| `IngressAnswers.SecondAnswer` | agntspark_gateway/routers/ingress.py:126-152 | A call that went on is answered 401 exactly when the agent is private and it carries none of its keys, 429 exactly when the agent's allowance is spent, 503 exactly when nothing runs, and otherwise one of the agent's containers, with one request metered |
| `IngressAnswers.OnlyTheEntitledGetIn` | agntspark_gateway/routers/ingress.py:126-134 | Over every schedule, a call is routed only with the token, to a container of the agent at its host, and if that is public or the call carries its key; a call to an agent that is answered anything but 429 gets 401 exactly when it is private and the key is missing |
| `Gateway.HourIsSixtyWindows` | agntspark_gateway/services/metering_service.py:46-47 | An instant is in an hour exactly when its limiter window is one of sixty |
| `Gateway.HalfCounts` | agntspark_gateway/routers/ingress.py:141-152 | A half of a call is counted exactly when it routes it, for its agent, owner and hour |
| `Gateway.RoutedByHit` | agntspark_gateway/routers/ingress.py:136-139 | A call of a limited owner is routed only by an admitted hit on its agent |
| `Gateway.ServeReplays` | agntspark_gateway/routers/ingress.py:136-139 | The per-agent table stays the replay of the hits made on it, as calls interleave |
| `Gateway.GatewayIsMeterRun` | agntspark_gateway/routers/ingress.py:141-152 | The gateway refines the meter: its ledger is a run of the meter's that counts exactly the routed calls |
| `Gateway.GatewayConserves` | agntspark_gateway/routers/ingress.py:141-152 | Over every interleaving of calls, flushes, failures, cancellations and account deletions: the calls routed to an agent in an hour are those waiting, in flight or stored, and those the trace says were dropped, lost or erased |
| `Gateway.MeteredWithinPlan` | agntspark_gateway/routers/ingress.py:136-145 | What is held for an agent and hour, waiting, in flight or stored, is at most sixty minutes of the plan's rate plus the calls that crossed the hour between limiter and meter |
| `Gateway.MeteredWithinPlanOneInstant` | agntspark_gateway/routers/ingress.py:136-145 | With one clock reading for limiter and meter, at most sixty minutes of the plan's rate |
| `Gateway.HourlyCeiling` | agntspark_gateway/plans.py:31-56 | 18,000 requests an hour to an agent on the free plan, 180,000 on pro |
| `Billing.ByCustomer` | agntspark_gateway/services/billing_service.py:99-101 | A user is found exactly when one holds the customer |
| `Billing.FindUser` | agntspark_gateway/services/billing_service.py:89-102 | Only existing users are found; `Billing.FindUserIff` says which |
| `Billing.FindUserIff` | agntspark_gateway/services/billing_service.py:89-102 | With unique customers, a user is found exactly if they are named, or nobody is named and they hold the customer |
| `Billing.BillingService.Find` | agntspark_gateway/services/billing_service.py:89-102 | The loop finds exactly the user who is named or, if nobody is, who holds the customer |
| `Billing.BillingService.Commit` | agntspark_gateway/services/billing_service.py:143-143 | A customer held by someone else fails the commit and changes nothing |
| `Billing.BillingService.HandleEvent` | agntspark_gateway/services/billing_service.py:119-177 | The users after any event; an error changes nothing, and customers stay unique |
| `BillingAnswers.CheckoutAnswers` | agntspark_gateway/services/billing_service.py:130-144 | A completed checkout links its customer and subscription and grants pro exactly when it is paid or free; without a user, or not for a subscription, nothing happens; someone else's customer fails it |
| `BillingAnswers.SubscriptionAnswers` | agntspark_gateway/services/billing_service.py:146-177 | A subscription event is applied from Stripe's current state, fails if that cannot be had, is ignored as bad news of another subscription, and otherwise gives the user exactly the plan its status earns; nobody else's row changes |
| `BillingAnswers.OtherEventsAreIgnored` | agntspark_gateway/services/billing_service.py:122-177 | Any other event changes nothing |
| `CustomerRuns.LearnedCustomerFinds` | agntspark_gateway/services/billing_service.py:99-101 | A customer that one event brings is on record for the next, which finds its user without a name |
| `CustomerRuns.CustomerKeptIff` | agntspark_gateway/services/billing_service.py:136-170 | An event leaves a user found by a customer so found exactly if it brings no other customer |
| `CustomerRuns.OutsideSubscriberGetsPro` | agntspark_gateway/services/billing_service.py:99-101 | A run in which a new user with a subscription that names nobody comes to be on pro |
| `CustomerRuns.SecondCustomerHidesTheFirst` | agntspark_gateway/services/billing_service.py:136-160 | A run in which a second customer hides the end of what the first one pays for |
| `Billing.PlanFollowsStatus` | agntspark_gateway/services/billing_service.py:31-32 | After any events, every user's plan is the one their status earns, so checkout is refused to exactly the users on pro: those active, trialing or past due |
| `Billing.ChangeKeeps` | agntspark_gateway/services/billing_service.py:105-116 | A change on Stripe's side leaves every row right about the subscriptions synced since they last changed |
| `Billing.SubscriptionKeeps` | agntspark_gateway/services/billing_service.py:146-177 | So does a late, repeated or reordered subscription event |
| `Billing.CheckoutKeepsIff` | agntspark_gateway/services/billing_service.py:130-144 | A completed checkout, paid, free or unpaid, does so exactly when it fits: the subscription that a settled one makes current is paid; an unpaid one names the current subscription or none, or the row is not paid, or events about both are still to come |
| `Billing.CheckoutPlanIff` | agntspark_gateway/services/billing_service.py:138-143 | With everything settled, a checkout leaves the plan right exactly when it is unpaid or the user pays for some subscription |
| `Billing.LateCheckoutGrantsPro` | agntspark_gateway/services/billing_service.py:138-143 | A run from a new user in which a paid checkout delivered after the cancellation leaves them on pro with everything settled and nothing paid |
| `Billing.UnpaidCheckoutKeepsPro` | agntspark_gateway/services/billing_service.py:136-169 | One in which an unpaid checkout that names another subscription hides the end of the paid one |
| `Billing.StepKeeps` | agntspark_gateway/services/billing_service.py:39-177 | Every step keeps the rows right, including ignored checkouts and the customer that checkout creates |
| `Billing.RunKeeps` | agntspark_gateway/services/billing_service.py:119-177 | So does every run, and it neither adds nor removes users |
| `Billing.BillingConverges` | agntspark_gateway/services/billing_service.py:105-177 | For any order and repetition of events: once each subscription has had an event handled after its last change, a user is on pro exactly when a subscription of theirs is paid |
| `LateWrites.NoGapIsDelivery` | agntspark_gateway/services/billing_service.py:105-116 | An event that is fetched and written with nothing in between is the delivery of one step |
| `LateWrites.WriteKeepsIff` | agntspark_gateway/services/billing_service.py:151-174 | However late, a write leaves every row right about the settled subscriptions exactly when it fits: news of no payment, unless the subscription is settled as paid; news of payment, if it is paid now or events are still to come about it and any paid one of the user |
| `LateWrites.CurrentWriteFits` | agntspark_gateway/services/billing_service.py:105-116 | A write fits as long as Stripe has not changed the subscription since the fetch |
| `LateWrites.WritePlanIff` | agntspark_gateway/services/billing_service.py:151-174 | With everything settled, a late write of a paid status leaves the plan right exactly when the user pays for some subscription, and one of an unpaid status exactly when that subscription is not paid |
| `LateWrites.LateBillingConverges` | agntspark_gateway/services/billing_service.py:105-177 | Billing converges with any number of fetched events under way and written in any order, as long as each write fits |
| `LateWrites.LateWriteDropsPayingUser` | agntspark_gateway/services/billing_service.py:105-116 | A run from a new user in which an event fetched before the payment and written after it leaves a paying user on free with everything settled |
| `Invites.RegistrationDesk.CreateInvite` | agntspark_gateway/services/invite_service.py:23-44 | Issuing an invite is the step of the concurrent machine that issues it |
| `Invites.RegistrationDesk.ClaimInvite` | agntspark_gateway/services/invite_service.py:61-75 | Only an active invite can be claimed, and a claim takes one use |
| `Invites.RegistrationDesk.RegisterUser` | agntspark_gateway/services/auth_service.py:21-48 | Account and use count are written together or not at all |
| `Invites.RegisterAnswers` | agntspark_gateway/services/auth_service.py:21-48 | Who gets an account: with an email that is free and, by invitation, an invite that is not revoked, not expired and not used up; the invite loses one use, a refusal changes nothing and names the first reason |
| `Invites.ClaimTakesHoldIff` | agntspark_gateway/models/invite.py:38-45 | Over interleavings, a claim takes hold exactly of an invite that is not revoked, not expired and not used up when its row is locked |
| `Invites.ExpiryIsFinal` | agntspark_gateway/models/invite.py:41-42 | Once an invite has expired and no claim of it is under way, no sign-up gets an account with it |
| `Invites.RegistrationDesk.RevokeInvite` | agntspark_gateway/services/invite_service.py:52-58 | The first revocation's time stays |
| `Invites.StepKeeps` | agntspark_gateway/services/invite_service.py:61-75 | Every step of interleaved sign-ups and revocations keeps counts, limits and locks right |
| `Invites.InvitesUnderConcurrency` | agntspark_gateway/services/auth_service.py:21-48 | For every interleaving, an invite's use count is the number of accounts that claimed it, within its limit, and emails are unique |
| `Invites.RevocationIsFinal` | agntspark_gateway/services/invite_service.py:52-58 | After a revocation commits, no sign-up, even one under way, gets an account with the invite |
| `Invites.AbortedClaimIsReusable` | agntspark_gateway/services/auth_service.py:30-48 | A sign-up that fails after its claim burns nothing: the next one gets the same use |
| `Invites.RegisterIsRun` | agntspark_gateway/services/auth_service.py:21-48 | A registration run alone is a run of the concurrent machine, whatever its reply |
| `Environment.EnvForContainer` | agntspark_gateway/services/agent_service.py:100-105 | Each variable gets its last definition, decrypted, and there are no others |
| `Environment.AgentEnv.constructor` | agntspark_gateway/services/agent_service.py:227-230 | The environment that creation stores |
| `Environment.AgentEnv.ApplyDeployConfig` | agntspark_gateway/services/agent_service.py:108-134 | The environment that a redeploy stores |
| `Environment.StorageRoundTrip` | agntspark_gateway/services/agent_service.py:78-86 | Storing and reading back gives each variable its last definition |
| `Environment.SecretsAreSealed` | agntspark_gateway/services/agent_service.py:78-86 | Exactly the secret variables are stored as ciphertext, each in its place |
| `Environment.RedeployedLookup` | agntspark_gateway/services/agent_service.py:108-134 | A redeploy's definitions win, undefined provider keys keep their value, and every other variable goes |
| `Environment.CreatedLookup` | agntspark_gateway/services/agent_service.py:137-143 | The owner's own key wins over the config's definition of it |
| `Environment.ApiKeyIsStoredOnce` | agntspark_gateway/services/agent_service.py:137-143 | The owner's own key is stored once, as ciphertext, in place of the config's definition |
| `Environment.EnvironmentAcrossRedeploys` | agntspark_gateway/services/agent_service.py:108-134 | After creation and any deploys, a container sees exactly what the requests alone determine |

## Left out

Conditions of the main results:

- PlanSafety.QuotaSafety: requests of one account run one after another, as `services/quota_service.py:4-6` accepts concurrent requests that overshoot together; no tick is under way while a request runs, since a tick writes from the rows it loaded (`StaleRuns.VisitRevivesIff`, `StaleRuns.StartingRowPassesPlan`); plans and roles do not change during a run; the runtime deploys at most what was asked, in the row's shape, a scale up by n adds at most n of the shape last deployed and nothing else adds containers. Three things are excluded by `Careful`, each with its exact condition and a run: a refused redeploy that describes less than runs (`RefusedRedeploySafeIff`), scaling an inactive agent without room for it (`ScaleSafeIff`), and a scale up that raises with more containers than the row says (`RaisedScaleSafeIff`). Containers of inactive agents are not counted, as quotas do not count them.
- MixedRuns.MixedRunsBounded: an account starts with no agent starting, its rows within the plan's limits for one replica and describing what runs but for a replica of each auto-scaling agent. A request is one step, so no tick loads a row that is starting (`StaleRuns.StartingRowPassesPlan` is what happens otherwise); requests are careful as for `QuotaSafety`; agent ids are not used again while a tick that loaded them is under way; one tick runs at a time; one auto-scale call adds at most one container. Agents count as auto-scaling if they auto-scale at any time in the run.
- MixedRuns.SafeStartStaysBounded: the same.
- AutoScaling.OvershootBounded: one auto-scale call adds at most one container, and there are no requests; `MixedRuns.MixedRunsBounded` is about runs with both.
- Metering.RequestsConserved: a flush that raises wrote nothing; a commit that succeeds and loses its acknowledgement is not modelled.
- Metering.InterleavingsAgree: an agent does not change hands, as there is no operation that changes its owner, and no account is deleted; so for the other results about logs of entries.
- Metering.MonthStartIsOnTheHour: the day of the month is an input; the calendar is not modelled.
- Metering.TotalsRefineLog: covers the sums selected, not the rounding that display applies to them.
- Scheduler.BucketBounded: the wall clock keeps an offset from the loop's clock, up to the lag.
- Gateway.MeteredWithinPlan: the agent's owner is no admin and keeps a plan of at most the given rate; calls read the per-agent limiter's clock in order.
- Ingress.NonInterference: the caller limiter's clock does not step back.
- IngressAnswers.ArrivalAnswer: the callers' clock does not step back over the calls so far, and a call arrives once at a time.
- IngressAnswers.SecondAnswer: the agents' clock does not step back over the calls so far.
- MeteredRuns.UsageIsMetered: the loop's clock does not step back.
- Ingress.IngressGate.Route: whether an Authorization header carries a valid access key is an oracle, and so is the choice of container; comparing a token that is not ASCII, which raises in the code, is not modelled.
- Hostnames.ParserInvertsPrinter: `Lower` is lower case on Latin-1 text, which covers every host that a header can carry; other letters in the base domain setting, or in the certificate check's query parameter, are not covered. For agent names any lower-casing is.
- Hostnames.RoundTrip: the same.
- Billing.BillingConverges: a user has at most one paid subscription at a time, subscriptions and checkouts carry their user or a customer that the user holds and has no other beside (`CustomerRuns.SecondCustomerHidesTheFirst` is what happens otherwise), a subscription stays whose it is, `deleted` events are about cancelled subscriptions, an applied checkout fits in the sense of `CheckoutKeepsIff`, and an event is handled in one step, which `LateWrites.LateBillingConverges` drops; administrators' plan changes are not part of the run, and other spellings of a user id are not modelled.
- LateWrites.LateBillingConverges: as `BillingConverges`, and a user's row is read and committed in one step.
- Invites.InvitesUnderConcurrency: row locks and the unique email index are those of the database; the invite code is its hash.
- Environment.EnvironmentAcrossRedeploys: decryption inverts encryption.

Not modelled:

- Rounding of binary floating point; amounts and instants are exact reals.
- The Redis limiter for the API, JWTs, password hashing and the cipher itself.
- Limiter reset and discarding pending counts, which only tests use.
- Stripe's checkout and portal sessions and webhook signatures.
- Masking of secrets in responses, request schemas, pagination, logs, metrics and the HTTP layer: they would only add easy members.
- The agents' error text, version numbers and other columns that no check reads.
- The container runtime, start-up reconciliation, migrations and deployment files.
