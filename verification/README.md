# A verified model of the two-tier allocation engine

This Dafny project models the per-step allocation engine of the satellite simulator and the retry
lifecycle around it, and proves what the engine is built to guarantee. Each step the control loop asks
the constellations whose circuit breakers allow it, adopts the resource plan on cadence, ingests newly
published and due retried requests, lets the emergency lane (Tier 2) reserve airtime for urgent traffic,
hands what is left to the best-effort tier (Tier 1: probabilistic admission, the regulatory filter, then a
scheduler with a fallback chain), re-queues what was deferred with backoff, and counts everything.

The objects the source updates in place are classes here (`ControlLoop`, `Breaker`, `InMemoryBus`,
`SyntheticRequestSource`, `AdmissionController`, `AdaptiveOptimizer`). The allocators are loops over a
mutable array of remaining capacity. Each loop is proved against a fold over the candidate list, and the
allocation laws are lemmas about that fold. A whole run is recorded in a ghost journal (`Ledger.State`);
`Ledger.Consistent` is the invariant every step keeps, whatever the demand, plan, replies, draws and
scheduler faults of the `World` are, and the whole-run results are consequences of it. `Ledger.Told`, kept
beside it, says of every step of the run what its record must tell.

| file | models |
|---|---|
| `ControlLoop`, `Gathering`, `RunSummary` | the loop class, failing over between constellations, a run's summary |
| `Ledger` | re-queueing with backoff and the whole-run invariant |
| `Pipeline`, `StepSafety`, `StepLoad`, `SchedulerKinds`, `StepReport` | the stages of one step, the contract of their composition, the load and shedding it reports, the scheduler it runs, all of it together |
| `EmergencyLane`, `LaneFairness` | Tier 2; its regional shares and what a full lane has left, in airtime |
| `FluidScheduler`, `SlotMac`, `ContentionMac`, `LinkAdaptation` | the four Tier 1 schedulers and their link adaptation |
| `FluidAirtime`, `BlockAirtime`, `RandomAccess` | what their results grant and leave undone, in terms of airtime, blocks and draws alone |
| `SchedulerPort`, `Fairness`, `Collections`, `Reals`, `Domain` | what schedulers share: contract, fairness index, sorting, sums, entities |
| `Admission`, `Planning`, `Optimizer`, `Learning` | load shaping: curves, damping, the heuristic and adaptive planners, what one window teaches |
| `RequestBus`, `RequestSource`, `CircuitBreaker`, `Regulatory`, `Scoring`, `Telemetry` | the remaining adapters |

## Conventions

- Floats are exact reals; the slack of 1e-9 is the constant `Domain.EPS`. Infinities and missing values are
  `Unbounded`, `Infinite` or `None`.
- Randomness is an arbitrary stream in range, supplied by the `World`: admission coins in [0,1), backoff
  jitter in [0, base], random-access draws as a beam choice and a permutation of the grid.
- A constellation snapshot is the list of its beams. Ids are integers, and a request's id is its publish
  position, so uniqueness of request ids is proved. Beam ids are unique and capacities non-negative by
  assumption (`World.GoodReplies`): the configuration does not enforce that fleets are distinct
  (src/satsim/config.py:361).
- Field bounds that the configuration schema checks are the `Valid` predicates.

## Where code and documentation differ

- The repository's README (line 74) and NOTES (line 78) say that urgent traffic shed by the lane spills into
  Tier 1. The code passes on only what the lane shed for being full; urgent requests that are expired or over
  the lane's retry limit are dropped (src/satsim/runtime/loop.py:203, 221). The model follows the code:
  `StepSafety.SpillsExactly` proves that a request the lane does not admit spills if and only if it is neither
  expired nor over that limit, `StepSafety.BarredNeverSpill` what becomes of the others, and
  `StepSafety.LateSosDoesNotSpill` exhibits an SOS one step late that Tier 1 never sees.
- The heuristic planner's comment (src/satsim/adapters/optimization/optimizer.py:61-63) says that high-score
  traffic is always admitted. Under congestion the damping sheds any score below one with some probability;
  `Optimizer.HeuristicNeverSheds` gives the exact condition on the planner's utilization and drop rate, the
  step's overage and the score, `Optimizer.HeuristicPlanNeverSheds` the same on a whole planning window,
  `Admission.NeverShedExactly` the condition for any curve, and `Admission.HighScoresCanBeShed` an instance.
- If a request lists one (fleet, band) option twice with different airtime caps, the fluid and slot schedulers
  use the last cap and the contention scheduler the first. `ContentionMac.LimitsAgreeExactly` says when the two
  agree and `ContentionMac.LimitsCanDisagree` shows a list on which they do not. The contracts assume agreeing
  options (`Domain.ConsistentOptions`), which `Regulatory.ViewsAgree` proves of the table policy.

## Model

| member | source | states |
|---|---|---|
| Ledger.ExactlyOnePlace | src/satsim/runtime/loop.py:188-242 | after any number of steps each published id is in exactly one of bus backlog, retry queue, served, dropped, rejected, and an unpublished id is in none |
| Ledger.ResolvedInTime | src/satsim/runtime/loop.py:351-378 | a request polled at step p is served, dropped or rejected once step p + budget * (backoff_max + backoff_base) is over |
| Ledger.QueueIsBounded | src/satsim/runtime/loop.py:351-369 | in every reachable state the retry queue is within its capacity and each entry is on retry 1 up to its class's budget, before its horizon |
| Ledger.RetriesKeepPace | src/satsim/runtime/loop.py:288-299 | a request served or deferred on its k-th retry was polled at least its k capped backoffs earlier, and at most k longest waits earlier |
| Ledger.ServedOnTimeAndLawfully | src/satsim/runtime/loop.py:217-219 | every service of a run, by either tier, has waited no longer than deadline minus arrival, on a beam shown that step by a configured client not held in cooldown, in the request's region, with fleet, band and airtime permitted up to the tolerance |
| Ledger.RefusalsHaveCause | src/satsim/runtime/loop.py:217-223 | every request a run drops or rejects has the cause it states: expired, over its own or the lane's retry limit, a retry queue that ended the step full, no legal option, or its coin; a full lane is never the final reason |
| Ledger.CapacityHeldEveryStep | src/satsim/runtime/loop.py:200-219 | on every step of a run both tiers together use at most a beam's capacity plus two tolerances (one for a resource-block scheduler), and Tier 2 at most its slice plus one |
| Ledger.StepsAddUp | src/satsim/runtime/loop.py:414-479 | per step, ingested = served + deferred + dropped + rejected; the per-class, per-region, per-fleet and per-reason tallies are the numbers of such dispositions and add up to those totals; every wait counted is from arrival to service |
| Ledger.CongestionEveryStep | src/satsim/runtime/loop.py:305-318 | on every step of a run: offered load plus the costs of the lane's admissions and of its drops is the cost of all arrivals; available capacity is the sum over the beams of capacity minus reservations, floored at zero; queue depth is the retries held plus the requests not yet polled; the drop rate is that of the step before; and the i-th request left to Tier 1 is shed exactly when the i-th coin is not below the curve value damped by that congestion |
| Ledger.SharesAndGrantsEveryStep | src/satsim/runtime/loop.py:196-219 | on every step of a run each region's reservations are within its proportional share of the reserve, and the grants are those of one run of the scheduler chain, over candidates told truly, with the marks of the configured scheduler or of the exit its faults leave |
| Ledger.StepKeepsConsistent | src/satsim/runtime/loop.py:188-242 | one soundly dispatched and settled step keeps the whole-run invariant: conservation, bounded queue, horizons, pacing and every day's contract |
| Ledger.DispatchIsSound | src/satsim/runtime/loop.py:194-223 | from any invariant state, dispatching fresh and due requests meets the step contract, whatever the plan, replies, draws and faults |
| Ledger.SettledStepKeepsConsistent | src/satsim/runtime/loop.py:220-242 | re-queueing and counting a sound dispatch leads to an invariant state |
| Ledger.DispatchIsTold | src/satsim/runtime/loop.py:194-223 | from any invariant state, the dispatch reports the load it met, keeps the lane's regional shares, and grants what its scheduler chain grants |
| Ledger.SettledStepKeepsTold | src/satsim/runtime/loop.py:220-242 | a settled step keeps the record of the run true: congestion, shedding, shares, scheduling and counters of every step, and the drop rate each step starts from is that of the step before |
| Ledger.StartIsConsistent | src/satsim/runtime/loop.py:158-167 | the empty state satisfies the whole-run invariant |
| Ledger.ArrivalsAreReady | src/satsim/runtime/loop.py:288-299 | new and due requests of a step are distinct, priced, within budget, not early and not past their horizon |
| Ledger.RequeueConserves | src/satsim/runtime/loop.py:351-369 | re-queueing loses and duplicates nothing: old queue plus deferred equals new queue plus drops |
| Ledger.RequeueKeepsQueue | src/satsim/runtime/loop.py:351-369 | re-queueing keeps the queue within capacity and every entry within budget, pace and horizon |
| Ledger.DropsHaveCause | src/satsim/runtime/loop.py:359-363 | a deferred request is dropped as over budget exactly when it is, and otherwise only against a queue that ends full |
| Ledger.BackoffBounds | src/satsim/runtime/loop.py:371-378 | backoff with jitter never exceeds backoff_max + backoff_base, and without jitter never falls as retries add up |
| Ledger.BackoffDoubles | src/satsim/runtime/loop.py:371-378 | backoff starts at the base, doubles with every retry and is cut at the cap, for every retry count; jitter comes on top exactly when there is a base |
| Ledger.RequeuedAtTheirTime | src/satsim/runtime/loop.py:351-378 | re-queueing leaves the queue in place and appends, in order, the first deferred requests within their budget until the queue is full, each one retry on and eligible after its backoff plus the next jitter drawn; exactly the others are dropped |
| Ledger.DayConserves | src/satsim/runtime/loop.py:188-242 | moving a step's arrivals into its dispositions keeps conservation |
| RunSummary.SummaryBalances | src/satsim/runtime/loop.py:171-186 | a run's totals account for every polled request, ingested equals served + deferred + dropped + rejected over the run, and the per-class tally adds up |
| RunSummary.DayAdds | src/satsim/runtime/loop.py:176-184 | adding a step's counters to the summary keeps every field equal to what the journal says happened |
| RunSummary.AddTally | src/satsim/runtime/loop.py:183-184 | the merging loop adds two dictionaries key by key |
| RunSummary.RunsFeedThePlanner | src/satsim/runtime/loop.py:393-401 | the counters of any run are valid feedback for the adaptive planner: utilization, collapse risk and fairness are fractions and shed is at most handled |
| ControlLoop.ControlLoop.Run | src/satsim/runtime/loop.py:171-186 | a full run keeps the invariant, its summary totals match the journal, all demand published is in backlog, retry backlog, served, dropped or rejected, and the trips reported are those of the clients' own outages |
| ControlLoop.ControlLoop.RunStep | src/satsim/runtime/loop.py:174-184 | one more step keeps the summary equal to the journal's totals |
| ControlLoop.ControlLoop.Step | src/satsim/runtime/loop.py:188-242 | one step keeps the invariant and its new plan, breakers, queue, drop rate, counters and journal are the stated functions of the old state and the world |
| ControlLoop.ControlLoop.Open | src/satsim/runtime/loop.py:190-193 | gathering, replanning and ingesting yield usable beams and fresh arrivals, and leave a bus backlog only when the batch is full |
| ControlLoop.ControlLoop.Close | src/satsim/runtime/loop.py:194-242 | dispatching and settling keep the invariant for all three scheduler exits |
| ControlLoop.ControlLoop.GatherConstellation | src/satsim/runtime/loop.py:246-266 | the failover loop returns the beams of the clients asked and up, counts new trips, and moves each breaker by one step |
| ControlLoop.ControlLoop.AskClient | src/satsim/runtime/loop.py:254-262 | one client is asked exactly when its breaker allows, its beams are taken if it answers, and only its breaker moves |
| ControlLoop.ControlLoop.MaybeReplan | src/satsim/runtime/loop.py:386-403 | exactly on cadence the new plan is adopted and handed to admission |
| ControlLoop.ControlLoop.SplitDue | src/satsim/runtime/loop.py:290-296 | the queue is split into due requests and waiting entries, both in order |
| ControlLoop.ControlLoop.Ingest | src/satsim/runtime/loop.py:288-299 | arrivals are the polled batch followed by the due retries, and the queue keeps exactly the others |
| ControlLoop.ControlLoop.HandleDeferred | src/satsim/runtime/loop.py:351-369 | the loop computes the re-queueing fold over the deferred requests |
| ControlLoop.ControlLoop.RequeueRequest | src/satsim/runtime/loop.py:359-368 | one deferred request is appended to the queue in place, or dropped with its reason |
| ControlLoop.ControlLoop.Settle | src/satsim/runtime/loop.py:217-240 | the journal entry agrees with what was dispatched, re-queued, dropped and counted, and the drop rate stays a fraction |
| ControlLoop.ControlLoop.constructor | src/satsim/runtime/loop.py:118-167 | a fresh loop satisfies the invariant, with a passthrough plan and an empty journal |
| ControlLoop.BatchIsFresh | src/satsim/runtime/loop.py:298 | a polled batch continues the numbering of everything polled before it |
| Gathering.GatheredAreUsable | src/satsim/runtime/loop.py:246-266 | the merged view has unique beam ids, non-negative capacities and only beams replied by a client its breaker let the loop ask |
| Gathering.GatheredAreOffered | src/satsim/runtime/loop.py:253-259 | over a run the merged view holds exactly the beams replied by configured clients that their own history of outages does not hold in cooldown |
| Gathering.FollowsOn | src/satsim/runtime/loop.py:253-262 | a step of the loop drives each client's breaker exactly as that client's own history does |
| Gathering.TripsAdvance | src/satsim/runtime/loop.py:252-262 | the trips a step reports are the trips added to the clients' own runs |
| Gathering.TripsMinusRecoveries | src/satsim/resilience.py:31-52 | over all constellations of a run, trips exceed recoveries by the number of open breakers |
| CircuitBreaker.Breaker.Allow | src/satsim/resilience.py:31-35 | a call is allowed exactly when closed or when the cooldown has elapsed |
| CircuitBreaker.Breaker.RecordSuccess | src/satsim/resilience.py:37-40 | a success closes the breaker and clears its failures |
| CircuitBreaker.Breaker.RecordFailure | src/satsim/resilience.py:42-52 | the new state after a failure, and whether it newly tripped the breaker |
| CircuitBreaker.TripsBalanceRecoveries | src/satsim/resilience.py:31-52 | in every run trips minus recoveries is one when open and zero when closed |
| CircuitBreaker.ClosedBelowThreshold | src/satsim/resilience.py:42-52 | in every run a closed breaker has fewer consecutive failures than its threshold |
| CircuitBreaker.FailingRun | src/satsim/resilience.py:31-52 | n failing steps from any open breaker, or any closed one below its threshold: a closed one is tried for each tolerated failure and then once per cooldown, and trips once exactly when its tolerance is used up; an open one is tried when its wait is over and then once per cooldown, and never trips |
| CircuitBreaker.OutageAttempts | src/satsim/resilience.py:31-52 | the same attempt and trip counts for an outage of n steps after any history at all |
| CircuitBreaker.FirstOutage | src/satsim/resilience.py:31-52 | a client that fails for n >= threshold steps after only successes trips exactly once and is attempted exactly threshold + floor((n - threshold) / cooldown) times |
| CircuitBreaker.SuccessForgets | src/satsim/resilience.py:37-40 | after any history ending in an attempted success, the attempts, trips and recoveries that follow are those of a breaker never driven before |
| StepSafety.StepIsSound | src/satsim/runtime/loop.py:188-223 | one step, under any plan, draws and faults: each arrival has exactly one disposition, each service is lawful, each beam and each reserved slice holds |
| StepSafety.StepHasCauses | src/satsim/runtime/loop.py:211-223 | every request a step drops or rejects is expired, over the lane's retries, without a legal option, or shed by a coin outside the damped probability of its own score |
| StepSafety.SpillsExactly | src/satsim/runtime/loop.py:203-209 | an urgent request the lane does not admit spills into Tier 1 if and only if it is neither expired nor over the lane's retry limit |
| StepSafety.BarredNeverSpill | src/satsim/runtime/loop.py:203-221 | an urgent request that is expired or over the lane's retry limit is not admitted, does not spill, is not in the best-effort load, and is dropped |
| StepSafety.LateSosDoesNotSpill | src/satsim/runtime/loop.py:203-221 | an SOS one step past its deadline is shed by the lane and never reaches Tier 1 |
| StepSafety.TiersMakeAStep | src/satsim/runtime/loop.py:217-223 | a sound Tier 2 decision and a sound Tier 1 outcome compose to a sound step |
| StepSafety.TierTwoIsSound | src/satsim/runtime/loop.py:196-200 | the lane's reservations are lawful, within their slices, and leave usable capacity |
| StepSafety.TierOneIsSound | src/satsim/runtime/loop.py:211-215 | admission, regulation and scheduling account for all best-effort load and meet the scheduler contract on the capacity left |
| StepSafety.TierOneKeepsItsShare | src/satsim/runtime/loop.py:91-108 | what is left of a beam is non-negative, at least (1 - reserved_fraction) of its capacity minus the tolerance, and with the reservations at most its capacity plus the tolerance |
| StepSafety.TiersFitTogether | src/satsim/runtime/loop.py:200-219 | reservations and grants together overdraw no beam beyond the two tolerances |
| StepSafety.ReservationIsLawful | src/satsim/adapters/admission/emergency.py:125-166 | a lane reservation is on time, in region, and permitted by the rule table within the airtime cap |
| StepSafety.GrantIsLawful | src/satsim/runtime/loop.py:327-345 | a scheduler grant on the reduced view is lawful on the original one |
| StepLoad.StepIsMeasured | src/satsim/runtime/loop.py:200-211 | the load a step reports is the cost of the arrivals that are neither admitted by the lane nor dropped by it as expired or over its retries, and the capacity is what its reservations leave on the beams; queue depth and drop rate are those handed in |
| StepLoad.LoadAddsUp | src/satsim/runtime/loop.py:200-211 | reported load plus the costs of the lane's admissions and of its drops equals the cost of everything that arrived |
| StepLoad.StepShedsExactly | src/satsim/runtime/loop.py:211-215 | the i-th request left to Tier 1 is shed by admission if and only if the i-th coin is at least curve(score) * (1 - overage * (1 - score)) under the congestion reported; and the admitted count plus the shed ones is everything left to Tier 1 plus the lane's admissions |
| StepLoad.ThreeWays | src/satsim/runtime/loop.py:196-209 | every arrival is admitted by the lane, dropped by it, or goes to Tier 1: exactly one of the three |
| SchedulerKinds.StepSchedules | src/satsim/runtime/loop.py:211-219 | the grants, services, deferrals and fairness of a step are those of one run of the scheduler chain, on the capacity left, over candidates with exactly the permitted options, the score under the plan, the cost, the delivery probability and the degradability of their request |
| Pipeline.Dispatch | src/satsim/runtime/loop.py:194-223 | the statements of a step compute the composed dispositions, whose load, capacity, shedding and scheduling are fixed by StepLoad.StepIsMeasured, StepLoad.StepShedsExactly and SchedulerKinds.StepSchedules |
| Pipeline.SubtractReservations | src/satsim/runtime/loop.py:91-108 | the dictionary pass leaves each beam its capacity minus what was reserved on it, floored at zero |
| Pipeline.BuildCandidates | src/satsim/runtime/loop.py:327-345 | the loop splits admitted requests into candidates and requests without a legal option |
| Pipeline.CandidatesPartition | src/satsim/runtime/loop.py:327-345 | every admitted request becomes exactly one candidate or one rejection |
| Pipeline.RunScheduler | src/satsim/runtime/loop.py:268-286 | primary scheduler, else heuristic fallback, else safe mode, with the mode and fallback count of the exit taken |
| Pipeline.EveryExitIsSound | src/satsim/runtime/loop.py:268-286 | all three exits, for each of the four schedulers, meet the scheduler contract with the slack of that exit |
| SchedulerKinds.ExitIsTold | src/satsim/runtime/loop.py:268-286 | the exit is the configured scheduler unless it fails, then the heuristic unless it fails, then deferral of everything, with mode and fallback count; told from the result alone: a heuristic result is maximal in airtime without a per-request cap, a priority-fair one within and up to its cap, a slot one in whole blocks and maximal in blocks, a contention one serves every user alone on its beam |
| Pipeline.TiersSplit | src/satsim/runtime/loop.py:196-221 | scored requests are exactly the best-effort load, the lane's admissions and the lane's drops, although spillover is decided by id |
| Pipeline.SpillsById | src/satsim/runtime/loop.py:203-209 | an id is among the spilled ids exactly when that request spilled |
| EmergencyLane.Reserve | src/satsim/adapters/admission/emergency.py:61-114 | the in-place pass computes the lane's decision, which LaneFairness.RegionsShareInProportion and LaneFairness.ShedMeansNoRoom bound from both sides |
| EmergencyLane.Rank | src/satsim/adapters/admission/emergency.py:116-133 | expired and over-retry requests are shed with their reason, the rest ranked by score and id |
| EmergencyLane.OfferAll | src/satsim/adapters/admission/emergency.py:86-107 | the reservation loop over the pool array and region totals computes the offering fold |
| EmergencyLane.PlaceOn | src/satsim/adapters/admission/emergency.py:153-180 | a reservation goes to the first eligible beam with most reserved headroom and is deducted there only |
| EmergencyLane.DecisionIsSound | src/satsim/adapters/admission/emergency.py:61-114 | urgent requests split exactly into admitted and shed, reservations are legal, units used is their sum, each beam's reserved slice holds, and each shed request has its cause |
| EmergencyLane.BooksBalance | src/satsim/adapters/admission/emergency.py:83-107 | reserved_units_used equals the sum of reservations and the sum of per-region use, and region use is what was reserved for that region |
| EmergencyLane.PoolStaysInBounds | src/satsim/adapters/admission/emergency.py:153-172 | no reserved slice is drawn below minus the tolerance, however many reservations are placed |
| EmergencyLane.PoolConservation | src/satsim/adapters/admission/emergency.py:153-180 | airtime reserved on a beam is exactly what its slice lost |
| EmergencyLane.ReservedSliceHolds | src/satsim/adapters/admission/emergency.py:68-72 | Tier 2 takes at most reserved_fraction of any beam's capacity plus the tolerance |
| EmergencyLane.RegionCapsHold | src/satsim/adapters/admission/emergency.py:95-97 | no region's use exceeds its cap plus the tolerance |
| EmergencyLane.RegionsShareFairly | src/satsim/adapters/admission/emergency.py:86-107 | of a decision: each region gets at most the per-region cap plus the tolerance, and the regions' shares add up to the units used |
| EmergencyLane.CapIsFair | src/satsim/adapters/admission/emergency.py:147-151 | the per-region cap lies between zero and the reserved total; LaneFairness.CapIsFairAmount says which amount it is |
| EmergencyLane.FullMeansFull | src/satsim/adapters/admission/emergency.py:91-102 | every request shed as lane-full still does not fit the final pool and region totals |
| EmergencyLane.ShedHasCause | src/satsim/adapters/admission/emergency.py:116-131 | a shed request is expired, over its retries, or turned away by a lane that is still too full for it at the end |
| EmergencyLane.ReservationsAreLegal | src/satsim/adapters/admission/emergency.py:153-180 | each reservation is priced by the cost model, in region, permitted, and within the per-request and airtime caps |
| EmergencyLane.BetterClaimsComeFirst | src/satsim/adapters/admission/emergency.py:86-133 | of a decision: no admitted request has a lower emergency score and at least the cost of a request of its region shed as lane-full |
| EmergencyLane.DecisionIgnoresOrder | src/satsim/adapters/admission/emergency.py:61-133 | with unique ids the admissions, reservations and units used are the same for every arrival order, and the shed requests the same up to order |
| LaneFairness.RegionsShareInProportion | src/satsim/adapters/admission/emergency.py:147-151 | of a decision, with n regions among the requests on time and within the lane's retries: n times what a region got is at most the fairness weight times the reserved fraction of all capacity (plus n tolerances), and what it got is at most that reserve (plus one) |
| LaneFairness.CapIsFairAmount | src/satsim/adapters/admission/emergency.py:147-151 | an amount passes the cap test if and only if it is within the region's proportional share and within the whole reserve, both up to the tolerance |
| LaneFairness.SliceSum | src/satsim/adapters/admission/emergency.py:68-79 | the positive slices add up to the reserved fraction of all capacity |
| LaneFairness.ShedMeansNoRoom | src/satsim/adapters/admission/emergency.py:91-102 | a request shed as lane-full costs more than one request may, or would lift its region over its proportional share, or fits what is left of no beam's slice where it is permitted |
| LaneFairness.DecidedInOrder | src/satsim/adapters/admission/emergency.py:86-107 | in the decision itself, nobody shed as lane-full has a higher emergency score (or the same and a lower id), the same region and no larger cost than somebody admitted |
| LaneFairness.RankIsComposite | src/satsim/adapters/admission/emergency.py:135-145 | the emergency score is severity, waiting and retries, each a fraction of its bound and times its weight |
| FluidScheduler.Schedule | src/satsim/adapters/scheduling/scheduler.py:72-118 | the in-place greedy pass computes the fold over candidates in score order |
| FluidScheduler.Allocate | src/satsim/adapters/scheduling/scheduler.py:120-161 | one placement changes one beam's remaining capacity by exactly the units granted |
| FluidScheduler.Scan | src/satsim/adapters/scheduling/scheduler.py:132-148 | the beam loop finds the first fitting beam with most headroom and the best partial one |
| FluidScheduler.PlaceMeaning | src/satsim/adapters/scheduling/scheduler.py:120-161 | served in full exactly when some beam fits, then on the first with most headroom; else in part exactly when degradable and some beam reaches the floor, then with the largest amount on offer |
| FluidScheduler.RemainingBounds | src/satsim/adapters/scheduling/scheduler.py:136-159 | remaining capacity never falls below minus the tolerance, however many placements were made |
| FluidScheduler.AirtimeConserved | src/satsim/adapters/scheduling/scheduler.py:150-159 | airtime granted on a beam is exactly the capacity it lost |
| FluidScheduler.EveryCandidateDecided | src/satsim/adapters/scheduling/scheduler.py:91-102 | every candidate is placed, deferred or expired, exactly once, and exactly the expired ones are dropped |
| FluidScheduler.PlacementsAreGood | src/satsim/adapters/scheduling/scheduler.py:120-161 | each grant is legal, unexpired, positive, within both caps, and degraded exactly when short, and then at least the floor |
| FluidScheduler.DeferredStillDoNotFit | src/satsim/adapters/scheduling/scheduler.py:86-161 | the schedule is maximal: the beams as finally left fit no deferred request in full and would refuse each of them again, also in part |
| FluidScheduler.RefusedMeansNoFit | src/satsim/adapters/scheduling/scheduler.py:132-161 | a candidate is refused or degraded exactly when it fits in full nowhere |
| FluidScheduler.BetterClaimsComeFirst | src/satsim/adapters/scheduling/scheduler.py:86-102 | of a schedule: no lower-scored candidate with the same region and options and at least the cost of a deferred one is served in full |
| FluidScheduler.ScheduleIgnoresOrder | src/satsim/adapters/scheduling/scheduler.py:86-118 | with unique ids the whole result is the same for every arrival order |
| FluidScheduler.ScheduleIsSound | src/satsim/adapters/scheduling/scheduler.py:72-118 | the heuristic and priority-fair schedulers meet the scheduler contract with one tolerance of slack |
| FluidAirtime.PlaceInAirtime | src/satsim/adapters/scheduling/scheduler.py:120-161 | in airtime: served in full exactly when some beam has room for the cost within its ceiling and the per-request cap; else in part exactly when degradable and some beam can give the floor fraction, and then with the most any beam could give |
| FluidAirtime.ScheduleIsMaximal | src/satsim/adapters/scheduling/scheduler.py:86-161 | in the result itself, no deferred candidate fits the airtime left on any beam in full, nor, if degradable, down to its floor |
| FluidAirtime.ScheduleIsCapped | src/satsim/adapters/scheduling/scheduler.py:120-161 | every allocation is a candidate's: positive, within its cost and the cap, the whole cost unless degraded, and then of a degradable class and at least the floor |
| FluidAirtime.ScheduleInOrder | src/satsim/adapters/scheduling/scheduler.py:86-102 | in the result itself, no deferred candidate has a higher score (or the same and a lower id), the same region and options and no larger cost than one served in full |
| SchedulerPort.ReportIsSound | src/satsim/adapters/scheduling/scheduler.py:104-118 | a partition with legal grants within capacity is reported as one, with fairness and utilization in [0,1] |
| SchedulerPort.IndicatorsInRange | src/satsim/adapters/scheduling/scheduler.py:104-118 | fairness and utilization are fractions |
| SchedulerPort.ConclusionIsExact | src/satsim/adapters/scheduling/scheduler.py:50-58 | utilization times the capacity is the airtime granted, at most the capacity, and zero without capacity; fairness times n times the sum of squared shares is the squared sum of the shares, with one for nobody and zero when nothing was granted |
| Fairness.JainBounds | src/satsim/adapters/scheduling/scheduler.py:50-58 | for n non-negative shares with a positive total the index is in [1/n, 1], and 1 exactly when all are equal |
| Fairness.SumSquared | src/satsim/adapters/scheduling/scheduler.py:50-58 | n times the sum of squares exceeds the squared sum by exactly the sum of squared pairwise differences |
| Fairness.JainPermutation | src/satsim/adapters/mac/mac.py:79-85 | the index does not depend on the order of the shares |
| Collections.SortIgnoresOrder | src/satsim/adapters/scheduling/scheduler.py:86-89 | a sort by a key that identifies elements gives the same list for every permutation |
| SlotMac.Schedule | src/satsim/adapters/mac/mac.py:97-145 | the in-place greedy pass over the grids computes the fold over candidates in score order; BlockAirtime.ScheduleIsMaximal says of its result that it leaves nothing out |
| SlotMac.Assign | src/satsim/adapters/mac/mac.py:147-180 | one assignment takes the granted blocks from one grid and nothing else |
| SlotMac.Scan | src/satsim/adapters/mac/mac.py:155-167 | the grid loop finds the first eligible grid with most assignable blocks |
| SlotMac.PlaceMeaning | src/satsim/adapters/mac/mac.py:147-180 | a grant is refused or degraded exactly when no grid carries the request in full, comes from a grid with most assignable blocks, and is degraded exactly when short |
| SlotMac.GridConservation | src/satsim/adapters/mac/mac.py:103-110 | on every beam free plus granted blocks equal the grid, and airtime used is the granted blocks' worth |
| SlotMac.CapacityRespected | src/satsim/adapters/mac/mac.py:182-200 | allocated units never exceed a beam's capacity |
| SlotMac.GrantsAreGood | src/satsim/adapters/mac/mac.py:147-200 | each grant is unexpired, eligible, positive, within need, the per-request cap and the option's airtime cap, degraded exactly when short, and then of a degradable class and at least the floor |
| SlotMac.EveryCandidateDecided | src/satsim/adapters/mac/mac.py:119-129 | every candidate is granted, deferred or expired, exactly once |
| SlotMac.DeferredStillDoNotFit | src/satsim/adapters/mac/mac.py:118-180 | the final grids would refuse each deferred request again, in full and in part; BlockAirtime.DeferredFitNowhere says the same in airtime |
| SlotMac.RefusedMeansNoneCanServe | src/satsim/adapters/mac/mac.py:155-180 | a candidate is refused exactly when no grid can assign it its need or, for a degradable class, its floor; BlockAirtime.PlaceInAirtime says the same in airtime |
| SlotMac.BetterClaimsComeFirst | src/satsim/adapters/mac/mac.py:118-129 | of a schedule: no lower-scored candidate with the same region and options needing at least as many blocks as a deferred one is granted in full |
| SlotMac.ScheduleIgnoresOrder | src/satsim/adapters/mac/mac.py:118-145 | with unique ids the whole result is the same for every arrival order |
| SlotMac.ScheduleIsSound | src/satsim/adapters/mac/mac.py:97-145 | the slot scheduler meets the scheduler contract without slack |
| BlockAirtime.PlaceInAirtime | src/satsim/adapters/mac/mac.py:147-180 | in airtime: a candidate gets all the blocks it needs exactly when some eligible grid has them free and their airtime is within the ceiling and their number within the per-request cap; else some exactly when degradable and some grid can give its floor, and then the most any grid can give |
| BlockAirtime.DeferredFitNowhere | src/satsim/adapters/mac/mac.py:118-180 | what the airtime finally unused on any beam could still give a deferred candidate under its ceiling and cap is short of its need and, if degradable, of its floor |
| BlockAirtime.ScheduleIsMaximal | src/satsim/adapters/mac/mac.py:97-145 | the same read off the result alone, for candidates with unique ids |
| BlockAirtime.ScheduleInWholeBlocks | src/satsim/adapters/mac/mac.py:182-200 | every allocation is a candidate's, worth a whole number of blocks of one beam, no more than it needs, and degraded exactly when fewer |
| BlockAirtime.ScheduleInOrder | src/satsim/adapters/mac/mac.py:118-129 | in the result itself, no deferred candidate has a higher score (or the same and a lower id), the same region and options and no larger need than one granted in full |
| ContentionMac.Schedule | src/satsim/adapters/mac/mac.py:243-302 | the two passes with their occupancy dictionary compute the result whose attempts RandomAccess.TransmitExactly and whose services RandomAccess.ServedExactly fix |
| ContentionMac.TransmitAll | src/satsim/adapters/mac/mac.py:259-275 | pass one yields the attempts, the deferred and expired, and a dictionary counting exactly the users of each block |
| ContentionMac.ResolveAll | src/satsim/adapters/mac/mac.py:277-288 | pass two serves exactly the attempts no block of which exceeds the capture capacity, for their shares, and defers the others |
| ContentionMac.AirtimeConserved | src/satsim/adapters/mac/mac.py:277-288 | on every beam the units of all served users sum to at most its capacity |
| ContentionMac.SumsExchange | src/satsim/adapters/mac/mac.py:286 | summing airtime user by user equals summing shares block by block |
| ContentionMac.BillBound | src/satsim/adapters/mac/mac.py:283-286 | the holders of the blocks together pay at most one block each |
| ContentionMac.SampleSize | src/satsim/adapters/mac/mac.py:342-349 | drawing k distinct indices gives exactly k blocks of the grid |
| ContentionMac.AttemptsAreGood | src/satsim/adapters/mac/mac.py:304-340 | every attempt is by an unexpired candidate on an eligible beam, within the grid, its need, the per-request cap and its airtime cap, degraded exactly when short, and then of a degradable class and at least the floor |
| ContentionMac.UsersPerBeam | src/satsim/adapters/mac/mac.py:281-288 | with capture capacity C at most C times the grid size users are served per beam |
| ContentionMac.RecoveredAreDisjoint | src/satsim/adapters/mac/mac.py:283-286 | with capture capacity one, two served users of a beam share no block |
| ContentionMac.CaptureOnlyHelps | src/satsim/adapters/mac/mac.py:277-288 | under the same draws, raising the capture capacity serves everyone served before |
| ContentionMac.AttemptIsLegal | src/satsim/adapters/mac/mac.py:317-340 | a recovered attempt's airtime is within its option's cap, without slack |
| ContentionMac.LimitsAgreeExactly | src/satsim/adapters/mac/mac.py:323-330 | the first-match cap of the contention scheduler equals the last-match cap of the others if and only if the first and the last listing of the pair carry the same cap |
| ContentionMac.LimitsCanDisagree | src/satsim/adapters/mac/mac.py:323-330 | a pair listed with caps one and two is read as one by the contention scheduler and as two by the others |
| ContentionMac.EveryCandidateHeard | src/satsim/adapters/mac/mac.py:263-275 | every candidate attempts, is refused or is expired, exactly once; RandomAccess.TransmitExactly says which |
| ContentionMac.WonOrLost | src/satsim/adapters/mac/mac.py:281-288 | every attempt is served or deferred, exactly once |
| ContentionMac.ScheduleIgnoresOrder | src/satsim/adapters/mac/mac.py:259-302 | with unique ids and the same draws the whole result is the same for every arrival order |
| ContentionMac.ScheduleIsSound | src/satsim/adapters/mac/mac.py:243-302 | random access meets the scheduler contract without slack, whatever is drawn |
| RandomAccess.TransmitExactly | src/satsim/adapters/mac/mac.py:263-275 | candidate by candidate: an expired one is dropped; one without eligible beam, or that on the beam drawn for it can carry neither its need nor, if degradable, its floor, is refused; every other transmits there, on the first blocks drawn for it, as many as it needs or else as many as it can |
| RandomAccess.SizeInAirtime | src/satsim/adapters/mac/mac.py:317-340 | the number of blocks attempted is the need if the whole grid could carry it under ceiling and cap; else, for a degradable class, the most that can be carried if that reaches the floor; else none |
| RandomAccess.RefusedExactly | src/satsim/adapters/mac/mac.py:263-275 | the candidates refused are exactly the unexpired ones that cannot transmit where they were drawn |
| RandomAccess.ServedExactly | src/satsim/adapters/mac/mac.py:281-288 | served are exactly the candidates with an attempt no block of which more users transmitted on than the capture capacity |
| RandomAccess.LoneUserIsServed | src/satsim/adapters/mac/mac.py:243-302 | an unexpired candidate that can carry its need on the beam drawn for it and is alone there is served in full, with the airtime of exactly the blocks it needs |
| RandomAccess.BlocksInUseArePaid | src/satsim/adapters/mac/mac.py:283-286 | when nobody collides on a beam, its users together are paid exactly the blocks in use, each one whole |
| LinkAdaptation.SpectralEfficiency | src/satsim/adapters/mac/mac.py:43-49 | the ladder scan computes the efficiency specified |
| LinkAdaptation.HighestReachedLevel | src/satsim/adapters/mac/mac.py:43-49 | the efficiency is that of the highest level whose threshold the link reaches |
| LinkAdaptation.RbsNeededIsLeast | src/satsim/adapters/mac/mac.py:52-58 | the block count is the least positive number whose bits cover the payload |
| LinkAdaptation.BetterLinkNeedsNoMore | src/satsim/adapters/mac/mac.py:43-58 | for a ladder whose bits do not fall with the threshold, a better link never needs more blocks |
| LinkAdaptation.CapRespected | src/satsim/adapters/mac/mac.py:61-67 | any positive number of blocks up to the regulatory cap stays within the airtime ceiling |
| LinkAdaptation.CapIsGreatest | src/satsim/adapters/mac/mac.py:61-67 | k blocks are within the regulatory cap if and only if a block carries airtime and that of k blocks is within the ceiling, or k is within the caller's bound where there is no ceiling |
| LinkAdaptation.EfficiencyOfBestLevel | src/satsim/adapters/mac/mac.py:43-49 | the efficiency is that of a level of the configured table: of those the link reaches the one with the highest threshold, or the one with the lowest if it reaches none |
| LinkAdaptation.NeedAtBestLevel | src/satsim/adapters/mac/mac.py:52-58 | the need is the least positive number of blocks that carries the payload at that level |
| Planning.CurveIsMonotone | src/satsim/domain/planning.py:39-54 | for sorted non-decreasing breakpoints the admit probability never falls as the score rises |
| Planning.CurveRange | src/satsim/domain/planning.py:39-54 | the admit probability is in [0,1] |
| Planning.CurveInterpolates | src/satsim/domain/planning.py:48-53 | with distinct breakpoints the curve lies on the straight line through the two points of every segment, whichever one the scan stops at |
| Planning.OverageExact | src/satsim/adapters/admission/admission.py:44 | the damping is zero exactly without excess load and backlog; times the capacity it is excess plus pressure times capacity, capped; without capacity every load gives one |
| Planning.OverageOfBacklog | src/satsim/domain/models.py:255-260 | from one unit of capacity on the damping is excess plus backlog as a fraction of the capacity, at most one |
| Planning.CollapseRiskExact | src/satsim/domain/models.py:249-253 | collapse risk is zero exactly without excess load, drops and backlog, and below one it is half of capped excess over capacity, drop rate and queue pressure together |
| Admission.AdmissionController.Admit | src/satsim/adapters/admission/admission.py:36-58 | the loop admits and sheds in order, one coin per request |
| Admission.AdmissionPartitions | src/satsim/adapters/admission/admission.py:46-58 | every scored request is admitted or shed, exactly once and with the shedding reason |
| Admission.ShedByCoin | src/satsim/adapters/admission/admission.py:48-56 | what is shed was shed by its own coin against its own damped probability |
| Admission.DampedIsMonotone | src/satsim/adapters/admission/admission.py:42-52 | the probability used is in [0,1], rises with the score and falls with congestion |
| Admission.SameCoinFavoursHigherScore | src/satsim/adapters/admission/admission.py:50-53 | under one coin a higher score is admitted whenever a lower one is, also under less congestion |
| Admission.TopScoreNeverShed | src/satsim/adapters/admission/admission.py:50-56 | a curve certain at score one never sheds a score of one, under any congestion |
| Admission.NeverShedExactly | src/satsim/adapters/admission/admission.py:44-53 | no coin sheds a request if and only if its curve value is one and either there is no overage or its score is one |
| Admission.HighScoresCanBeShed | src/satsim/adapters/admission/admission.py:52-56 | in a step offered twice its capacity the overage is one, and every monotone curve, an admit-all one included, sheds a score of 0.9 on some coin |
| Optimizer.AdaptiveOptimizer.Learn | src/satsim/adapters/optimization/optimizer.py:420-447 | a planning window keeps signals in [0,1] and buckets in range and non-decreasing; its new state is the learned one, which the Learning rows fix, or unchanged without feedback |
| Optimizer.AdaptiveOptimizer.UpdateSignals | src/satsim/adapters/optimization/optimizer.py:426-438 | the feedback loop and smoothing compute the smoothed realized signals |
| Optimizer.AdaptiveOptimizer.MoveBuckets | src/satsim/adapters/optimization/optimizer.py:443-447 | the two in-place loops compute the learned buckets, which Learning.BucketsMove fixes |
| Optimizer.AdaptiveOptimizer.Curve | src/satsim/adapters/optimization/optimizer.py:452-455 | the curve broadcast is the learned buckets between the floor and certainty |
| Optimizer.BucketsStayGood | src/satsim/adapters/optimization/optimizer.py:443-447 | any signal leaves the buckets in [floor_min, 1] and non-decreasing |
| Optimizer.TighteningLowersAll | src/satsim/adapters/optimization/optimizer.py:441-447 | a non-positive signal raises no bucket and makes the running maximum a no-op |
| Optimizer.LooseningRaisesAll | src/satsim/adapters/optimization/optimizer.py:441-447 | a non-negative signal lowers no bucket |
| Learning.BucketsMove | src/satsim/adapters/optimization/optimizer.py:443-447 | each of the n buckets is pushed by t - p with 2n * (t - p) = rate * (2n - 2i - 1) * signal, kept between the floor and one, and raised to the largest one below it |
| Learning.SignalMovesBuckets | src/satsim/adapters/optimization/optimizer.py:441-447 | a negative signal strictly lowers every bucket above the floor, a positive one strictly raises every bucket below one, and a zero one leaves all |
| Learning.RealizedExactly | src/satsim/adapters/optimization/optimizer.py:426-433 | realized utilization and collapse times the number of steps are the sums over the steps, and the shed fraction times everything handled is what admission shed |
| Learning.SignalsAreSmoothed | src/satsim/adapters/optimization/optimizer.py:449-450 | a smoothed signal lies between its past and its present and divides their distance in the ratio of the weights; the first one is the present |
| Learning.NetExactly | src/satsim/adapters/optimization/optimizer.py:440-442 | the net signal is what was shed less the part shed on used capacity less the collapse penalty; without collapse it is positive exactly when load was shed while capacity sat idle, and on pure collapse it is negative |
| Learning.GovernedAreLatest | src/satsim/adapters/optimization/optimizer.py:422-424 | a window learns from the latest steps, as many as a plan is valid for |
| Learning.CollapseTightens | src/satsim/adapters/optimization/optimizer.py:420-447 | if nothing was shed and some step risked collapse, every bucket above the floor strictly falls |
| Learning.IdleSheddingLoosens | src/satsim/adapters/optimization/optimizer.py:420-447 | without collapse, if some step shed and some step was not fully used, every bucket below one strictly rises |
| Learning.QuietWindowTeachesNothing | src/satsim/adapters/optimization/optimizer.py:420-447 | without collapse, a fully used window or one that shed nothing leaves every bucket where it was |
| Learning.CurveMeetsBuckets | src/satsim/adapters/optimization/optimizer.py:452-455 | the curve broadcast passes through every bucket at the middle of its scores, through the lowest at zero and through one at one |
| Optimizer.SmoothAllInRange | src/satsim/adapters/optimization/optimizer.py:449-450 | smoothed signals stay fractions |
| Optimizer.RealizedInRange | src/satsim/adapters/optimization/optimizer.py:426-433 | realized utilization, collapse and shed fraction are fractions |
| Optimizer.LearnedCurveIsSafe | src/satsim/adapters/optimization/optimizer.py:452-455 | over every history of signals the learned curve is sorted, monotone and one at score one |
| Optimizer.HeuristicCurveIsSafe | src/satsim/adapters/optimization/optimizer.py:56-66 | for any utilization and drop rate the heuristic curve is sorted, monotone and one at score one |
| Optimizer.HeuristicNeverSheds | src/satsim/adapters/optimization/optimizer.py:56-66 | no coin sheds a request under the heuristic curve if and only if its score is one, or utilization is at most one, nothing was dropped and there is no overage |
| Optimizer.HeuristicPlanNeverSheds | src/satsim/adapters/optimization/optimizer.py:131-133 | the same for the curve planned from a window: mean clamped utilization at most one, no recent step dropped anything, and no overage |
| Optimizer.HeuristicCurveExact | src/satsim/adapters/optimization/optimizer.py:39-66 | the planned curve runs from its floor to certainty, where the floor is one minus the mean drop rate, divided by the mean utilization where that exceeds one; the mean utilization is that of the steps' load over capacity, each cut at the clamp, or demand over capacity without history |
| Optimizer.PlannersProtectTheTop | src/satsim/adapters/optimization/optimizer.py:56-66 | under either planner's curve, after any history and congestion, a score of one is never shed and scores are favoured in order |
| Optimizer.BudgetsSpendTheCapacity | src/satsim/adapters/optimization/optimizer.py:131-137 | demand shares add up to one and airtime budgets to the capacity, and each class gets the part of the capacity that its demand is of all demand |
| RequestBus.InMemoryBus.Publish | src/satsim/bus.py:31-34 | an entry is appended under the next sequence number |
| RequestBus.InMemoryBus.Drain | src/satsim/bus.py:36-53 | the popping loop returns what is taken and rebuilds what is kept |
| RequestBus.DrainTakesFirstAvailable | src/satsim/bus.py:36-53 | a drain returns the first max_batch available entries in publish order |
| RequestBus.DrainConserves | src/satsim/bus.py:36-53 | a drain neither loses nor duplicates an entry |
| RequestBus.DrainKeepsOrder | src/satsim/bus.py:46-52 | what stays queued stays in publish order |
| RequestBus.DrainCutsPrefix | src/satsim/bus.py:36-53 | when availability follows publish order a drain cuts a prefix off the queue, full or up to the first entry not yet due |
| RequestSource.SyntheticRequestSource.Poll | src/satsim/adapters/io/request_source.py:31-36 | the batches of a run concatenate to a prefix of everything published, the backlog is exactly the rest, and a batch short of max_batch leaves nothing due |
| RequestSource.SyntheticRequestSource.GenerateThrough | src/satsim/adapters/io/request_source.py:33-35 | each step's demand is published exactly once |
| RequestSource.PublishedInOrder | src/satsim/demand.py:55-71 | published requests are numbered from zero in order, available and arriving at their step, and untried |
| RequestSource.DemandIsPublished | src/satsim/demand.py:55-71 | one more step publishes exactly its samples, in the order drawn, each as a request with the sample's class, region, size, link and urgency, arriving at the step and due its slack later |
| Regulatory.ViewsAgree | src/satsim/adapters/network/regulatory.py:26-56 | evaluate and allowed_options agree on every (region, fleet, band), including the airtime cap |
| Regulatory.OptionsOfRegion | src/satsim/adapters/network/regulatory.py:26-40 | the options are exactly the region's fleets times bands under its cap, whichever band is preferred |
| Regulatory.PreferredComeFirst | src/satsim/adapters/network/regulatory.py:26-40 | options on the preferred band come before all others |
| Scoring.ScoreRises | src/satsim/scoring.py:51-77 | with non-negative weights the score does not fall with a higher class, more urgency or longer waiting |
| Scoring.NeutralScoreIsWeighted | src/satsim/scoring.py:51-77 | with neutral fairness and weights adding up to at most one nothing is clamped: the score is the weighted sum of class, urgency and waiting |
| Scoring.ScoreIsComposite | src/satsim/scoring.py:51-77 | the score is the rank of the class in its fixed order over six, the urgency and the waiting, each times its weight, all times the plan's weight for the class if it has one, cut to [0,1] |
| Scoring.PressureIsWaited | src/satsim/scoring.py:59-60 | waiting pressure times the slack (of one step at least) is the number of steps waited, at most the slack |
| Scoring.WaitingRises | src/satsim/scoring.py:59-60 | waiting pressure is a fraction, does not fall as steps pass, and is one from the deadline on |
| Scoring.CostClearsPayload | src/satsim/scoring.py:32-41 | cost times link quality (floored) times bytes per unit is exactly the payload |
| Scoring.BetterLinkCostsNoMore | src/satsim/scoring.py:32-41 | a better link never costs more, and links below the floor cost as much as at the floor |
| Telemetry.BuildCounters | src/satsim/runtime/loop.py:414-479 | the counting loops tally exactly the dispositions, the gauges are those of the congestion and the airtime, and on lawful input every indicator is a fraction |
| Telemetry.CountsAddUp | src/satsim/runtime/loop.py:431-467 | per-class, per-region and per-fleet tallies add up to served, per-reason to dropped plus rejected |
| Telemetry.CountsAreExact | src/satsim/runtime/loop.py:431-467 | each tally of a step is the number of its services, grants or refusals of that class, region, fleet or reason, the degraded count is the number of degraded grants, and the waits are the steps from arrival |
| Telemetry.TalliesAddUp | src/satsim/runtime/loop.py:431-450 | a dictionary that counts occurrences has exactly as much in total as was counted |

## Left out

- `SolverOptimizer` and its mathematical program: a foreign solver whose result cannot be seen.
- Planner fairness weights, fleet hints and region budgets: only range claims.
- The optimizer wired into the loop, and the bounded history of the last windows: the loop takes an arbitrary plan on each cadence step, so its results hold for every planner.
- ControlLoop.ControlLoop.Step: a scheduler or client fault is a value of the `World`, not a raised exception; a faulting scheduler leaves no partial effect.
- ContentionMac.Schedule: the rejection loop that samples blocks, which ends only with probability one, is the first k entries of an arbitrary permutation of the grid.
- Collections.SortIgnoresOrder: ids compare as integers where the source compares strings; the proofs use only that the order is total.
- LinkAdaptation.BetterLinkNeedsNoMore: assumes bits per symbol do not fall along the sorted ladder, which the configuration does not check.
- Floating-point rounding: exact reals instead.
- The random number generator, seeds, Poisson arrivals, surges and demand sampling: any demand with positive payloads is allowed.
- Grouping of beams into satellites, and orbital visibility: a snapshot is its list of beams.
- Telemetry events and sinks, the command line, the web interface, experiments, presets and configuration parsing: input and output.
