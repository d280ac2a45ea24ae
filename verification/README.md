# A verified model of the production simulator and its verdict harness

The repository is a fleet of simulated services with a chaos engine, a load
generator, and a harness that injects faults, watches an external monitoring
system and grades what it saw. This project models the parts of it that hold
state machines, step protocols or arithmetic, and proves what the rest of the
repository relies on them for:

- a timer of the chaos engine ends only the activation that armed it, a sticky
  fault ends only through a deliberate act, and what exactly the two unlocked
  windows of the engine let through;
- a passing verdict means, in plain terms and in time, that everything the
  scenario expects came true, for every sequence of replies, and where it does
  not mean that;
- the health score, the fault mask, the per-fault health and the phase name
  computed from one schedule agree;
- the user cache is invisible, over whole handlers, and what interleaving their
  steps costs; the order cache is not, and how;
- orders and payments balance over every interleaving of requests, lost
  messages and retries;
- the pub/sub queue delivers the publish order with the drops taken out;
- launched sessions are the whole part of what the ticks earned, the reported
  percentile is the nearest-rank one, both weighted pickers are the same one;
- the metric names of the ecommerce emitter are reversible, its perturbations
  commute, and the storefront's event transform conserves events.

Where the source changes things in place there is a class whose methods are
tied to functions on values; the theorems over whole runs are about those
functions.

## Files

| file | contents |
|---|---|
| Chaos.dfy | chaos engine: its operations as functions on worlds and as a class |
| ChaosRuns.dfy | what every run of the engine keeps |
| ChaosCampaigns.dfy | campaigns and the kill-switch over runs of the engine |
| ChaosShape.dfy | effective intensity: range, growth, scaling, flapping |
| ChaosRace.dfy | the auto-disable timer with its steps split at the unlocked gaps |
| SysState.dfy | the epoch health schedule and its four views |
| PaymentOutcome.dfy | how the payment service decides one request |
| Alerts.dfy | alert baselines, detection, resolving |
| Verdict.dfy | the phases of one scenario run, grading, the suite report |
| VerdictMeaning.dfy | what a verdict means in clock readings, replies and the numbers of the scenario |
| Recovery.dfy | what a recovery the harness saw says about the engine |
| Platform.dfy | the in-memory table store and the cache |
| UserCache.dfy, CacheRace.dfy | the user service, as whole handlers and step by step |
| OrderSaga.dfy, OrderReads.dfy | placing orders; reading them through the cache meanwhile |
| Queue.dfy | the pub/sub queue |
| LoadShape.dfy, Latency.dfy, Pickers.dfy | traffic generation and its statistics |
| EcomNames.dfy, EcomPerturb.dfy | dimension-in-name metrics and their perturbation |
| Shopify.dfy | the storefront's event transform |
| Common.dfy, Text.dfy | units, options, counting; ASCII text |

## Assumptions

- Times and durations are integer nanoseconds, probabilities and weights exact
  reals: floating-point rounding is not modelled.
- Random draws, clock readings, replies of other systems, cosines and
  exponentials are arbitrary inputs, restricted to their ranges where a result
  needs it.
- Text is ASCII. Marshalling a record and reading it back is the identity.
- In `Chaos` every operation of the engine is one step. In a legal run of
  `ChaosRuns` no activation of a type happens at the clock reading with which a
  pending timer of that type was armed; `OldTimerEndsNewActivationIff` shows
  exactly what this assumption is for. `ChaosRace` drops atomicity and keeps
  distinct start times.
- User ids, order ids and payment ids are fresh. The source draws them at random
  and inserting overwrites; `CreateKeepsCoherenceIff` shows what a collision of
  user ids does.
- In the closure theorems of `ChaosCampaigns` the wakeups of the campaign are never
  late; everything else in their runs is arbitrary.

## Where the code and its documentation differ

The model follows the code.

- Service names are said to match by suffix (internal/harness/runner.go:569-570);
  they match by containment: `ServiceMatchesIsContainment`.
- The default delay before an analysis is documented as 150 seconds
  (internal/harness/scenario.go:105-106) and is 240
  (internal/harness/runner.go:346-347).
- The quiet phase is a false-positive control exactly as long as it is not
  cancelled: `QuietVouchesIff`.
- Recovery is documented as observed (internal/harness/runner.go:456-457). It is
  exactly if the target is known and the reply that decides decodes:
  `PassIsObservedIff`, with `UnknownTargetPassesUnseen` and
  `UndecodableStatusPassesUnseen` for the two ways it fails. An observed recovery
  is attributable - something removed the fault since the dispatch - if a sticky
  fault was active then, which the harness does not check:
  `RecoveryIsAttributable`, `NothingToRecoverIsSeenCleared`.
- The confidence threshold of an expected analysis is applied only if the
  scenario also names origins.
- Under a forced scenario the health of one fault is not capped at 1 as the
  health score is: `ForcedViewsAgreeIff`. Ten scenario names are valid, not the
  five in the comment (internal/sysstate/sysstate.go:80-81).
- The comment on the gateway multipliers calls stripe the most fragile
  (internal/dimensions/dimensions.go:175-179); it is adyen.
- After the kill-switch exactly the faults of campaign steps still asleep can come
  back by themselves, and the end of a campaign stops a later campaign of the
  same name: `KillSwitchSparesExactlyTheSleepers`, `RunningFlagAttribution`.
- A campaign step shorter than a nanosecond runs for 60 seconds, possibly past the
  campaign's end: `CampaignLeavesNothingIff`.
- A cached user is behind its record, with no delete of it on its way, exactly if a
  write fell between the read and the store of its fill, and a cached order
  exactly if it was settled since its record was fetched:
  `StaleIffTheFillOverlapped`, `StaleIffSettledSinceTheFetch`.
- Concurrent updates of one user can undo one another, exactly as
  `UpdateIsLostIff` says.
- Sessions launched are the whole part of what the ticks earn only if the rate
  cannot become negative, that is if the minimum rate is not negative or three
  sigma are at most 1: `SumIsNeverNegativeIff`.
- The load noise is called mean-reverting; it is so only over short enough
  steps, by default of up to ten minutes: `NoiseRevertsIff`,
  `DefaultNoiseOvershootsIff`.
- A summary after a window without requests divides by zero once any request
  was ever made: `Latency.Statistics.Summarize`.

## Model

| member | source | states |
|---|---|---|
| Chaos.NormalizeIntensity | internal/chaos/chaos.go:320-331 | results lie in [0, 1], values already there are kept (so normalizing twice is normalizing once), percentages become fractions, and what is outside is cut off |
| Chaos.NormalizeDuration | internal/chaos/chaos.go:333-341 | exactly the durations in (0, 15 min] are kept; a missing one is 60 seconds and a longer one 15 minutes |
| Chaos.MaxSeconds | internal/chaos/chaos.go:306-312 | an upper bound of all step ends that is attained, or 0 |
| Chaos.CampaignVerdict | internal/chaos/chaos.go:243-256 | a campaign is accepted iff it has 1 to 32 steps, all of registered types |
| Chaos.FirstInvalid | internal/chaos/chaos.go:254-258 | the reported step is the first one of an unregistered type |
| Chaos.Engine.constructor | internal/chaos/chaos.go:61-86 | a new engine is the initial world: all types registered and idle, capacity 1 |
| Chaos.Engine.EnableSpec | internal/chaos/shape.go:47-116 | the whole new engine state of an activation, its timer included, is that of the run semantics |
| Chaos.Engine.Completed | internal/chaos/shape.go:48-63 | normalization and defaults give exactly the record the run semantics writes |
| Chaos.Engine.Disable | internal/chaos/chaos.go:126-138 | only the record of that type is cleared |
| Chaos.Engine.FireTimer | internal/chaos/shape.go:102-115 | a waking timer does what the run semantics says |
| Chaos.Engine.CheckActive | internal/chaos/chaos.go:156-170 | active iff enabled and sticky, unlimited, or not older than its duration |
| Chaos.Engine.Remediate | internal/chaos/ops.go:77-92 | clears exactly the active types of its clear set, reports exactly those, and only a restart resets capacity |
| Chaos.Engine.DisableActive | internal/chaos/ops.go:83-89 | the loop clears and reports the types that were active before it |
| Chaos.Engine.SetCapacity | internal/chaos/shape.go:181-187 | capacity becomes the request, but at least 1 |
| Chaos.Engine.Scale | internal/chaos/ops.go:40-52 | fewer than one replica is refused without effect |
| Chaos.Engine.DisableAll | internal/chaos/chaos.go:231-240 | every record is cleared whatever the visiting order, the campaign is no longer running, sleepers stay |
| Chaos.Engine.StartCampaign | internal/chaos/chaos.go:243-304 | verdict and new state, sleeping steps and end step included; a refused campaign changes nothing |
| Chaos.Engine.AcceptSteps | internal/chaos/chaos.go:254-266 | the in-place loop rejects at the first unregistered type and normalizes every step otherwise |
| Chaos.Engine.Launch | internal/chaos/chaos.go:283-301 | all steps are asleep and the end of the campaign is scheduled |
| Chaos.Engine.PutToSleep | internal/chaos/chaos.go:284-290 | one sleeping goroutine per step, due at its own start |
| Chaos.Engine.EndAfter | internal/chaos/chaos.go:306-318 | the campaign ends a second after the last step end |
| Chaos.Engine.WakeStep | internal/chaos/chaos.go:286-289 | a woken step activates through the same path as any activation |
| Chaos.Engine.EndCampaign | internal/chaos/chaos.go:292-301 | only a campaign of the same name stops running |
| ChaosRuns.NextKeepsInv | internal/chaos/shape.go:65-127 | every legal step keeps the engine's invariant: an enabled non-sticky record has its own pending timer, and timers and records agree on who armed what |
| ChaosRuns.RunKeepsInv | internal/chaos/shape.go:65-127 | so does every legal run |
| ChaosRuns.RunKeepsTypes | internal/chaos/chaos.go:61-86 | no run adds or removes a fault type |
| ChaosRuns.TimerEndsOnlyItsOwnActivation | internal/chaos/shape.go:102-116 | over every run, a timer ends its type iff the current activation is the one that armed it; that one is not sticky and has had its whole duration, and no other type is touched |
| ChaosRuns.OldTimerEndsNewActivationIff | internal/chaos/shape.go:105-116 | an older timer ends a newer activation, sticky or not, iff both carry the same start time |
| ChaosRuns.SameInstantReenableIsCutShort | internal/chaos/shape.go:73-116 | re-enabling within one clock reading for 15 minutes is over after the first 60 seconds |
| ChaosRuns.ActivationLastsAsAsked | internal/chaos/shape.go:47-81 | an activation starts at once with the intensity asked for and is active for exactly its duration, 60 seconds without one and 15 minutes at most, or for ever if sticky |
| ChaosRuns.ActivationShape | internal/chaos/shape.go:52-63 | the shape asked for is kept and each default replaces what is missing or out of range |
| ChaosRuns.ReportedTypesExactly | internal/chaos/chaos.go:204-215 | reported types are the active ones and those whose own timer is overdue; once due timers have run the two coincide |
| ChaosRuns.NonStickyLifetime | internal/chaos/chaos.go:153-170 | over every run no non-sticky fault is active beyond its duration, which is at most 15 minutes |
| ChaosRuns.RecordStaysOrIsCleared | internal/chaos/chaos.go:126-138 | a step that does not activate a type leaves its record as it was or clears it |
| ChaosRuns.StickyStep | internal/chaos/chaos.go:153-155 | no step but a removing one changes a sticky record, and none but an activation switches a type on |
| ChaosRuns.StickyFaultNeedsRemediation | internal/chaos/ops.go:1-9 | over every run without a new activation, a sticky fault is still active iff there was no disable of it, no kill-switch and no remediation whose clear set holds it |
| ChaosRuns.RemediationsPartitionTheTypes | internal/chaos/ops.go:20-28 | clear sets are pairwise disjoint and cover every registered type but pod crash |
| ChaosCampaigns.RunningFlagAttribution | internal/chaos/chaos.go:292-301 | over every run that starts no campaign, the current one is still running iff there was no kill-switch and no end step of its own name |
| ChaosCampaigns.KillSwitchSparesExactlyTheSleepers | internal/chaos/chaos.go:231-240 | from every reachable state, some legal run after the kill-switch without a new activation or campaign has the type active again iff a campaign step of that type is asleep, overdue ones included |
| ChaosCampaigns.SleeperOutlivesKillSwitch | internal/chaos/chaos.go:284-290 | waiting for such a step, or for the clock to move if it is overdue, and waking it is such a run |
| ChaosCampaigns.NanosAdds | internal/chaos/chaos.go:286-318 | truncating start and duration apart never exceeds truncating their sum |
| ChaosCampaigns.EveryStepIsPutToSleep | internal/chaos/chaos.go:254-290 | each step of an accepted campaign sleeps until its own start for its own type, none starts before the campaign, and a dry run puts none to sleep |
| ChaosCampaigns.CampaignEndsASecondAfterItsLastStep | internal/chaos/chaos.go:292-318 | the campaign is scheduled to end, under its name, one second after the end of the step that ends last |
| ChaosCampaigns.RecordAfterLastActivation | internal/chaos/chaos.go:284-290 | over every run, if the last activation of a type is a punctual wakeup of the campaign, the record at the end is what that step wrote, or off |
| ChaosCampaigns.CampaignClosure | internal/chaos/chaos.go:243-318 | over every run from the start of an accepted campaign to its computed end or later, the activation a step made is still active iff nothing switched it off, the step lasts less than a nanosecond, and at most 60 seconds have passed since it woke |
| ChaosCampaigns.CampaignLeavesNothingIff | internal/chaos/chaos.go:306-318 | no run finds an activation of the campaign active at or after its end iff every step lasts at least a nanosecond or starts more than 60 seconds before that end |
| ChaosCampaigns.WholeSecondCampaignClosure | internal/chaos/chaos.go:243-318 | with whole-second durations no run finds an activation of the campaign active at or after its end |
| ChaosCampaigns.HalfNanosecondStepOutlivesItsCampaign | internal/chaos/chaos.go:333-341 | a campaign of one half-nanosecond step on a new engine ends after a second and leaves its fault active |
| ChaosShape.CapacityFor | internal/chaos/shape.go:167-178 | the divisor is at least 1 |
| ChaosShape.EffectiveIntensityInRange | internal/chaos/chaos.go:178-190 | in every reachable state 0 <= effective <= base <= 1 |
| ChaosShape.EffectiveIntensityGrows | internal/chaos/shape.go:130-157 | until expiry, waiting never lowers the effective intensity of a step, ramp or slow-leak fault |
| ChaosShape.RampReachesBaseExactly | internal/chaos/shape.go:133-137 | at full scope and one replica, a ramp has reached its base intensity iff its ramp time is over |
| ChaosShape.ScalingRelievesButNeverClears | internal/chaos/shape.go:159-187 | scaling is monotone in the replicas, affects only capacity-sensitive types and never makes a positive intensity vanish |
| ChaosShape.ScalingDividesExactly | internal/chaos/shape.go:159-187 | r replicas divide the effective intensity of the four capacity-sensitive types by r, leave all others as they are, and only a restart undoes it |
| ChaosShape.EffectiveIntensityExactly | internal/chaos/chaos.go:178-190 | effective intensity times the replicas, where they count, is base times onset factor times scope |
| ChaosShape.OnsetReaches | internal/chaos/shape.go:130-157 | a step reaches all at once, a ramp in proportion to its time, a slow leak to its duration or 30 minutes if sticky, a flap is the square wave |
| ChaosShape.FlapIsASquareWave | internal/chaos/shape.go:145-153 | f(t) + f(t+p) = 1, f(t+2p) = f(t), and on exactly in the even half-cycles |
| ChaosRace.NextKeepsInv | internal/chaos/shape.go:65-127 | invariant of the machine with the activation and the timer split at their unlocked gaps |
| ChaosRace.RunCountsWrites | internal/chaos/shape.go:65-81 | the serial number of a record counts its activations over every run |
| ChaosRace.OwnTimerRunsOnTime | internal/chaos/shape.go:102-116 | undisturbed, an activation is ended by its own timer, exactly once its duration is over; a sticky one arms none |
| ChaosRace.TimersActOnce | internal/chaos/shape.go:102-116 | a timer is armed, checks and acts at most once, and only its act touches a record |
| ChaosRace.TimerEndsAnotherActivationIff | internal/chaos/shape.go:81-127 | whatever interleaves, a timer ends an activation not its own iff the type was activated again inside one of the two gaps |
| ChaosRace.StickyFaultEndedThroughTheCheckGap | internal/chaos/shape.go:107-113 | a sticky activation between check and disable is ended by the timer, from every such state |
| ChaosRace.StickyFaultEndedThroughTheArmingGap | internal/chaos/shape.go:81-127 | a sticky activation before the start time is re-read is ended by the timer, from every such state |
| SysState.EveryIncidentIsGood | internal/sysstate/sysstate.go:230-358 | each incident of the table has a single-bit primary fault outside its cascade, positive phases, peak health in [0.1, 0.3] and slopes of at most 0.5 a minute |
| SysState.PlanIsGood | internal/sysstate/sysstate.go:374-385 | whatever the draws, an incident starts after 6 to 13.5 minutes |
| SysState.CurveInRange | internal/sysstate/sysstate.go:410-429 | the curve lies between peak health and 1 |
| SysState.HealthCurve | internal/sysstate/sysstate.go:389-430 | within an epoch health falls, holds, rises, and changes by at most 0.5 a minute |
| SysState.PhasesInOrder | internal/sysstate/sysstate.go:458-489 | phases follow normal, degraded, critical, recovering, normal |
| SysState.PhaseMatchesHealth | internal/sysstate/sysstate.go:458-489 | the phase name fits the score, and the peak ends before the epoch does |
| SysState.PhasesByTheClock | internal/sysstate/sysstate.go:458-489 | each phase name holds for exactly its interval of the epoch |
| SysState.SlopesAreStraight | internal/sysstate/sysstate.go:416-429 | ramp and recovery are straight lines between 1 and peak health, and health is 1 outside the incident |
| SysState.EpochsFollowTheirDraws | internal/sysstate/sysstate.go:374-385 | an epoch is quiet iff its roll is below 0.55, and otherwise its incident and calm part are as drawn |
| SysState.BoundaryJump | internal/sysstate/sysstate.go:403-430 | at an epoch boundary health is 1 and it jumped there iff the epoch cut the recovery short |
| SysState.MaskOnSchedule | internal/sysstate/sysstate.go:433-455 | a fault is in the mask iff the score is below 0.95 and it is the primary, or in the cascade after the middle of the ramp |
| SysState.FaultViewsAgree | internal/sysstate/sysstate.go:433-559 | active implies unhealthy and implies the primary is active; a fault is unhealthy iff it takes part in a showing incident, all others have health 1 |
| SysState.PrimaryWorstThenCascade | internal/sysstate/sysstate.go:498-549 | while the score shows the incident the primary is below the whole, and any cascade fault strictly between the two |
| SysState.FaultHealthShares | internal/sysstate/sysstate.go:542-547 | the primary has exactly half the health of the whole, each cascade fault three quarters |
| SysState.HealthDipsOnce | internal/sysstate/sysstate.go:389-430 | health between two moments of an epoch is at most the larger of theirs |
| SysState.ActiveOnOneInterval | internal/sysstate/sysstate.go:433-455 | each fault is active on one contiguous interval of an epoch |
| SysState.ForcedViewsAgreeIff | internal/sysstate/sysstate.go:506-530 | under a forced scenario fault health stays within the score iff the intensity is at least 0.5 (primary) or 0.75 (cascade) of the peak health, and is below 1 iff the intensity is above that bound |
| SysState.ForcedFaultHealthShares | internal/sysstate/sysstate.go:518-529 | under a forced scenario they have half and three quarters of the peak health over the intensity, at least 0.01 |
| SysState.ForceLastsUntilItsDeadline | internal/sysstate/sysstate.go:148-186 | after the deadline all four views are those of a system never forced; up to it the state is critical, the mask the incident's, and health its peak over the intensity within 0.01 and 1 |
| SysState.ForceShowsExactlyForItsDuration | internal/sysstate/sysstate.go:82-112 | a force of d nanoseconds shows exactly while no more than d have passed, and everything is normal afterwards |
| SysState.WeakForceReadsHealthy | internal/sysstate/sysstate.go:518-528 | db_contention forced at 0.1 has network congestion in the mask with health 1.125 |
| SysState.ErrorRateFollowsHealth | internal/sysstate/sysstate.go:579-588 | scaled error rates are probabilities, hit base and maximum at health 1 and 0, and never fall as health falls |
| SysState.ErrorRateIsLinear | internal/sysstate/sysstate.go:579-588 | the rate at the mean of two healths is the mean of their rates |
| SysState.ClampIntensity | internal/sysstate/sysstate.go:98-106 | forced intensities end up in [0.1, 10], values there are kept, non-positive ones mean 1 |
| SysState.Switch.ForceScenario | internal/sysstate/sysstate.go:82-112 | forces the first incident of that name until the deadline; an unknown name changes nothing |
| SysState.Switch.ClearForce | internal/sysstate/sysstate.go:116-120 | nothing is forced any more |
| PaymentOutcome.GatewayMultiplier | internal/dimensions/dimensions.go:180-191 | multipliers lie in [0.6, 1.4] |
| PaymentOutcome.Decide | cmd/payment/main.go:204-261 | which rolls time out and which complete |
| PaymentOutcome.EndsOfTheScales | cmd/payment/main.go:204-229 | the probabilities at both ends of health, with and without a storm, on every gateway |
| PaymentOutcome.WorseConditionsNeverHelp | cmd/payment/main.go:204-229 | lower health, or a storm, never turns a failing roll into a completing one |
| PaymentOutcome.SomePaymentsSucceedWithoutStorm | cmd/payment/main.go:201-215 | without a retry storm at least 9 of 100 rolls complete on every gateway |
| PaymentOutcome.OnlyAdyenCanBeCutOff | cmd/payment/main.go:204-229 | on every other gateway at least 5 of 100 rolls complete, storm or not, at every intensity |
| PaymentOutcome.AdyenIsCutOffIff | cmd/payment/main.go:204-229 | at any moment, scheduled or forced, every adyen payment fails iff retry amplification is forced with intensity at least 2.2088 |
| Alerts.ServiceMatchesIsContainment | internal/harness/runner.go:569-574 | a service matches iff the wanted name occurs in it, ignoring case |
| Alerts.BaselineHolds | internal/harness/runner.go:290-297 | the baseline holds the matching alerts of its table with their dedup counts, and nothing else |
| Alerts.WaitForAlert | internal/harness/runner.go:289-331 | the result is the first counted alert of the first poll holding one, and nothing iff no poll that takes place holds one |
| Alerts.HitMeans | internal/harness/runner.go:298-331 | a row counts iff it was seen in time before any cancellation, is on the service, and is fresh, not in the baseline, or has a greater dedup count than there |
| Alerts.OldAlertPagesIffItGrew | internal/harness/runner.go:312-317 | an alert of the baseline that has not fired anew pages iff its dedup count has grown |
| Alerts.BaselineHoldsTheLastRow | internal/harness/runner.go:290-297 | the baseline count of an id is that of its last matching row |
| Alerts.UnchangedTableHitsOnlyFresh | internal/harness/runner.go:280-297 | a table unchanged since the baseline pages iff it holds a fresh matching alert |
| Alerts.LostBaselineHitsOldAlerts | internal/harness/runner.go:291-297 | without a baseline every matching alert pages, however old |
| Alerts.CancelledWatchSeesNothingMore | internal/harness/runner.go:326-328 | nothing after the first cancelled poll has any influence |
| Alerts.AlertTable.ResolveRunAlerts | internal/harness/runner.go:519-536 | exactly the listed run-fresh alerts whose request succeeds stop firing |
| Alerts.ResolvedAlertsAreDetectedAgain | internal/harness/runner.go:514-536 | after a fully successful resolve no listed run alert fires, all others still do, and a resolved one that fires again is detected by the next run |
| Verdict.Runner.CheckTargets | internal/harness/runner.go:222-240 | preflight passes iff the engine is not degraded and every injection target is known and reachable |
| Verdict.Runner.PostChanges | internal/harness/runner.go:79-98 | setup succeeds iff every change is accepted, and collects exactly the non-empty versions |
| Verdict.Runner.GradeRCA | internal/harness/runner.go:385-435 | passes iff origin, evidence and change criteria are all met |
| Verdict.Runner.RunRCA | internal/harness/runner.go:333-383 | yields the first fresh analysis in time, and fails iff there is none |
| Verdict.Runner.PollAnalyses | internal/harness/runner.go:369-382 | the loop finds the first fresh reply before the deadline and any cancellation, or there is none |
| Verdict.Runner.RunRemediation | internal/harness/runner.go:437-476 | passes iff triggered, approved, dispatched, and some probe in time looked cleared |
| Verdict.Runner.WatchBusiness | internal/harness/runner.go:182-208 | passes iff some reply before the deadline mentions a keyword |
| Verdict.Runner.KillAll | internal/harness/runner.go:497-511 | each known target of the scenario is sent exactly one kill-switch |
| Verdict.Runner.Finish | internal/harness/runner.go:559-567 | passed iff no phase failed |
| Verdict.Runner.Run | internal/harness/runner.go:60-218 | passed iff everything the scenario expects came true, with exactly the expected phases, each reported failed iff it did, degraded iff on a fallback analysis and skipped iff remediation is off |
| Verdict.Runner.Begin | internal/harness/runner.go:71-112 | preflight, setup and injection, with both early ends |
| Verdict.Runner.Watched | internal/harness/runner.go:114-147 | the quiet and detect phases record what held |
| Verdict.Runner.Graded | internal/harness/runner.go:149-180 | the analysis and remediation phases record what held |
| Verdict.Runner.Concluded | internal/harness/runner.go:182-217 | the business phase and the cooldown record what held |
| Verdict.Runner.RunDetect | internal/harness/runner.go:129-147 | passes iff the first counted alert has an allowed severity |
| Verdict.Runner.RunRcaPhase | internal/harness/runner.go:149-169 | degraded iff the first fresh analysis is a fallback, failed iff there is none or it misses a criterion |
| Verdict.PhasesAreCanonical | internal/harness/runner.go:60-218 | each phase at most once and in canonical order; a full run has exactly one result per expectation present |
| Verdict.EarlyFailureInjectsNothing | internal/harness/runner.go:71-112 | a run injects, and cools down, iff preflight and setup succeed; otherwise it ends there |
| Verdict.TriggerDelayInSeconds | internal/harness/runner.go:345-350 | the delay before an analysis is as configured, 240 seconds by default, none if negative |
| VerdictMeaning.PassingMeans | internal/harness/runner.go:60-218 | a scenario passes iff every expectation it holds was met in time, each spelled out in replies, clock readings and the scenario's seconds or the defaults 600, 600, 360, 300 and 480 |
| VerdictMeaning.QuietMeans | internal/harness/runner.go:114-127 | quiet holds iff no row paged within the seconds |
| VerdictMeaning.DetectMeans | internal/harness/runner.go:129-147 | detect holds iff the first row that paged within the seconds has an allowed severity |
| VerdictMeaning.DetectedInTime | internal/harness/runner.go:131-138 | a detected alert was polled before start plus the scenario's seconds, or 600 |
| VerdictMeaning.RcaMeans | internal/harness/runner.go:333-435 | the analysis holds iff the first one of this run, in time, is a fallback or names an origin, keyword and change as demanded |
| VerdictMeaning.RecoveryMeans | internal/harness/runner.go:437-495 | recovery holds iff dispatched and some look in time was clear |
| VerdictMeaning.BusinessMeans | internal/harness/runner.go:182-208 | business holds iff some reply in time mentions a keyword |
| VerdictMeaning.ReportMeans | internal/harness/runner.go:60-218 | each phase is reported with its own outcome |
| Verdict.UncancelledQuietIsSound | internal/harness/runner.go:114-127 | a passing verdict vouches for every poll before the quiet deadline that no cancelled quiet poll precedes, whatever happened in other phases |
| Verdict.QuietVouchesIff | internal/harness/runner.go:114-127 | at any moment of the window, passing will mean no countable alert before the deadline iff no quiet poll so far was cancelled |
| Verdict.MissedAfterCancellation | internal/harness/runner.go:326-328 | after a cancelled poll, one fresh alert just before the deadline is countable and the phase still passes |
| Verdict.CancelledQuietPassesRegardless | internal/harness/runner.go:326-328 | a cancelled quiet phase passes whatever later polls hold |
| Verdict.PassIsObservedIff | internal/harness/runner.go:456-495 | recovery passes iff some look decides, and the pass is an observation iff the target is known and the deciding reply decoded |
| Verdict.RemediationPassIsObserved | internal/harness/runner.go:456-495 | with a known target and decodable bodies, passing and seeing the fault cleared are the same |
| Verdict.UndecodableStatusPassesUnseen | internal/harness/runner.go:483-494 | a known target whose first reply does not decode passes without having been seen clear |
| Verdict.UnknownTargetPassesUnseen | internal/harness/runner.go:478-482 | with an unknown target the first look passes whatever the status |
| Verdict.RunsHaveOneDegradedAtMost | internal/harness/runner.go:149-169 | at most one phase of a run is degraded |
| Recovery.RecoveryIsAttributable | internal/harness/runner.go:456-495 | if a sticky fault was active at dispatch and not activated again, a recovery seen cleared means a disable, kill-switch or clearing remediation happened in between |
| Recovery.NothingToRecoverIsSeenCleared | internal/harness/runner.go:463-467 | a target with no fault at dispatch is seen cleared although nothing was remediated |
| Verdict.BuildSuiteReport | internal/harness/report.go:25-40 | each run counts once as passed or failed, and degraded counts runs |
| Platform.DB.Insert | internal/platform/platform.go:58-64 | writes one record, creating the table, overwriting the id |
| Platform.DB.Get | internal/platform/platform.go:81-91 | the record, or nothing iff table or id is missing |
| Platform.DB.Update | internal/platform/platform.go:134-144 | replaces an existing record and fails without effect otherwise |
| Platform.Cache.Get | internal/platform/platform.go:164-191 | the entry, unless absent or forced to miss |
| Platform.Cache.Set | internal/platform/platform.go:194-205 | writes one entry |
| Platform.Cache.Delete | internal/platform/platform.go:208-217 | removes one entry |
| UserCache.ServeKeepsCoherence | cmd/user/main.go:186-320 | with fresh ids every request keeps cached entries equal to records and answers as without a cache |
| UserCache.CacheIsTransparent | cmd/user/main.go:186-320 | over every run all replies are those of a service reading its database directly |
| UserCache.AcknowledgedUpdateIsServed | cmd/user/main.go:269-320 | after an acknowledged update every get, until someone else changes the user, answers the fields of the update where given and the earlier ones elsewhere |
| UserCache.AcknowledgedCreationIsServed | cmd/user/main.go:228-267 | after an acknowledged creation it answers exactly what was created |
| UserCache.OtherRecordsStay | cmd/user/main.go:186-320 | requests about other users, refused ones and gets change no record |
| UserCache.WhoIsRefused | cmd/user/main.go:186-296 | which requests are refused, and in which order of reasons |
| UserCache.LastReplyIsAfterTheRun | cmd/user/main.go:186-320 | replies are those of the state the earlier requests led to |
| UserCache.CreateKeepsCoherenceIff | cmd/user/main.go:247-260 | creating keeps coherence iff no different record is cached under the drawn id |
| UserCache.UserService.HandleGet | cmd/user/main.go:186-226 | the in-place handler is the specified request |
| UserCache.UserService.HandleCreate | cmd/user/main.go:228-267 | the in-place handler is the specified request |
| UserCache.UserService.HandleUpdate | cmd/user/main.go:269-320 | the in-place handler is the specified request |
| CacheRace.NextKeepsInv | cmd/user/main.go:196-313 | with handlers split into steps, every stale write is accounted for by an overlap or a pending delete |
| CacheRace.StaleIffTheFillOverlapped | cmd/user/main.go:196-219 | over every interleaving a cached value was once the record; with no delete pending it is behind by exactly the writes its fill missed, so current iff it missed none |
| CacheRace.FillIsBehindByItsGap | cmd/user/main.go:208-313 | following one fill, the entry ends up behind by the writes in its gap and after it, and those after it would leave a delete pending |
| CacheRace.MissedWritesAreThoseInTheGap | cmd/user/main.go:208-219 | an entry missed exactly the writes between its read and its store |
| CacheRace.OverlappedFillStaysStale | cmd/user/main.go:305-313 | the overlap is possible from every state with a changing write pending |
| CacheRace.PendingStepsBalance | cmd/user/main.go:208-313 | over every run each fill is stored, each update written and each delete made at most once |
| CacheRace.UpdateIsLostIff | cmd/user/main.go:279-310 | an update leaves anything but itself applied to the record it finds iff another write fell between its read and its write and left a copied field different |
| CacheRace.NameUpdateLostToEmailUpdate | cmd/user/main.go:298-305 | from every reachable state two updates of different fields can lose the first |
| OrderSaga.NextKeepsInv | cmd/order/main.go:246-327 | every legal step of any request keeps the saga's invariant |
| OrderSaga.OrdersOnlySettle | cmd/order/main.go:294-311 | over every interleaving a status only moves from pending to confirmed or failed, nothing else changes, and the settling update finds its record |
| OrderSaga.EventsAnnounceConfirmedOrders | cmd/order/main.go:310-320 | every event equals a confirmed record, no order has two, and exactly the requests finished as confirmed have one |
| OrderSaga.CountersAreCountsOfTheRun | cmd/payment/main.go:285-298 | what a request has unheard, unstored and charged is what the steps of the run make it |
| OrderSaga.PaymentsBalance | cmd/payment/main.go:285-298 | from the moment a request is done, completed payments on record + those the run did not store = those the run left unheard + 1 if confirmed; charged exactly when confirmed iff the two counts are equal |
| OrderSaga.PaymentsAreOfTheTotal | cmd/payment/main.go:285-298 | over every run each new payment is for the order of one of the requests and for its whole total |
| OrderSaga.GivenUpAttemptMayStillCharge | cmd/order/main.go:411-414 | from every state with an attempt on its way, giving up on it and processing it late leaves an unheard completed payment |
| OrderSaga.ReliableOrdersAreChargedOnce | cmd/order/main.go:333-389 | with replies delivered, payments stored and no late processing, a confirmed order has exactly one completed payment and a failed order none |
| OrderSaga.ChargesAreBounded | cmd/order/main.go:351-384 | over every run an order is charged at most three times, however late its attempts are processed |
| OrderSaga.AttemptsAreBounded | cmd/order/main.go:351-384 | at most three attempts per order and none after a success that was heard of |
| OrderSaga.AttemptsExactly | cmd/order/main.go:351-388 | an order fails only after exactly three attempts, and a confirmed one took one to three |
| OrderSaga.OrderService.DoPaymentRequest | cmd/order/main.go:391-422 | one attempt is a run of the machine; it succeeds iff completed and heard of |
| OrderSaga.OrderService.CallPaymentService | cmd/order/main.go:333-389 | the loop succeeds iff one of three attempts does |
| OrderSaga.OrderService.CreateOrder | cmd/order/main.go:264-327 | the handler is a run of the machine and confirms iff an attempt succeeds |
| OrderSaga.OrderService.Conclude | cmd/order/main.go:296-320 | settling and announcing is a run of the machine |
| OrderReads.NextKeepsInv | cmd/order/main.go:209-244 | every copy of an order is its record, or its record before settling |
| OrderReads.PendingStepsBalance | cmd/order/main.go:214-237 | every read fetches at most once and every fetch is stored at most once |
| OrderReads.OnlyThePendingGoStale | cmd/order/main.go:214-237 | over every interleaving a cached order is stale iff it says pending and its record does not; all else agrees |
| OrderReads.StaleOrdersStayStale | cmd/order/main.go:297-311 | with no forced miss and no read of it that has already missed, a stale order is served for good |
| OrderReads.FetchRepairs | cmd/order/main.go:226-237 | the fetch and store of any read that has missed replace the stale copy by the record |
| OrderReads.ForcedMissRepairs | internal/platform/platform.go:175-184 | a forced miss is such a read |
| OrderReads.RecordChangesIffSettled | cmd/order/main.go:294-311 | over every run a record changes iff the run settles its order |
| OrderReads.StaleIffSettledSinceTheFetch | cmd/order/main.go:226-244 | following one cached copy from the fetch of its record, it is stale iff the order was settled since, in the gap before its store or after it |
| OrderReads.CanSettle | cmd/order/main.go:354-388 | from every reachable state a request under way can be settled |
| OrderReads.ReadWhilePayingGoesStale | cmd/order/main.go:209-244 | an order first read anywhere between being placed and being settled can be cached at once and then ends up stale |
| OrderReads.OrderReader.GetOrder | cmd/order/main.go:209-244 | the handler is a read step and, if it misses, its fetch and store, and answers what is then cached |
| Queue.RunConserves | internal/platform/platform.go:247-306 | published = handled + in hand + buffered + dropped for every channel over every run |
| Queue.LogIsWhatWasOffered | internal/platform/platform.go:264-273 | a channel's log holds exactly the messages the run offered to it, in order |
| Queue.DeliveryIsPublishOrderWithoutDrops | internal/platform/platform.go:264-306 | handled, in hand, buffered is the sequence of messages the run offered to the channel since it subscribed without the drops, the buffer holds at most 256, and a message is dropped iff 256 accepted ones wait |
| Queue.PubSub.Publish | internal/platform/platform.go:264-273 | is a run of one offer to each channel of the topic in turn, and touches no other topic |
| Queue.PubSub.AddSubscriber | internal/platform/platform.go:278-283 | appends one empty channel |
| Queue.PubSub.Consume | internal/platform/platform.go:287-306 | one round takes and finishes the oldest buffered message |
| LoadShape.DiurnalInRange | internal/loadshape/loadshape.go:111-130 | the time-of-day factor lies in [0.05, 1 + amplitude + negated negative dip] |
| LoadShape.DiurnalExactly | internal/loadshape/loadshape.go:116-130 | the factor is 1 plus amplitude times the weighted cosines less the dip, cut off at 0.05 |
| LoadShape.WeeklyExactly | internal/loadshape/loadshape.go:132-143 | the factor of each kind of weekday |
| LoadShape.RateIsInProportion | internal/loadshape/loadshape.go:82-89 | the rate is the product of base rate, factors and noise, or the minimum if that is more |
| LoadShape.RateInRange | internal/loadshape/loadshape.go:82-89 | the rate lies between what the least time of day, weekday and noise make of the base rate, or the minimum, and a ceiling made of the greatest |
| LoadShape.DefaultRates | internal/loadshape/loadshape.go:40-51 | with the default shape the least rate is 1.71 percent of the base rate, or the minimum of 0.5, and the ceiling 2.0832 times it |
| LoadShape.NoiseRevertsIff | internal/loadshape/loadshape.go:145-170 | an undisturbed deviation does not grow iff reversion rate times minutes is at most 2 |
| LoadShape.DefaultNoiseOvershootsIff | internal/loadshape/loadshape.go:152-158 | at the default reversion it grows iff the noise was not advanced for more than ten minutes |
| LoadShape.QuarterHourOvershoots | internal/loadshape/loadshape.go:152-158 | a quarter of an hour turns a deviation of 0.04 into -0.08 |
| LoadShape.ShocksMoveTheNoise | internal/loadshape/loadshape.go:152-167 | short of the limits a step adds sigma times the shock less what reverts, and gaps count as half an hour at most |
| LoadShape.NoiseOnlyMovesForward | internal/loadshape/loadshape.go:146-171 | a clock that has not moved or a sigma of zero leaves the noise alone |
| LoadShape.DefaultsExactly | internal/loadshape/loadshape.go:62-76 | which settings are replaced and by what |
| LoadShape.Shape.constructor | internal/loadshape/loadshape.go:62-76 | defaults replace non-positive settings |
| LoadShape.Shape.NoiseFactor | internal/loadshape/loadshape.go:146-171 | the deviation never leaves three sigma and moves only forward in time |
| LoadShape.Shape.RPSAt | internal/loadshape/loadshape.go:82-89 | the rate is that of the advanced noise and within the bounds |
| LoadShape.JourneyMix | cmd/traffic/journey.go:42-88 | weights sum to 1 and weighted steps to 3.9 |
| LoadShape.AvgStepsPerJourney | cmd/traffic/journey.go:106-113 | 3.9 requests per session |
| LoadShape.Shape.Advanced | internal/loadshape/loadshape.go:157-167 | the advanced deviation, clamped to three sigma |
| LoadShape.Launcher.OnTick | cmd/traffic/journey.go:169-177 | a tick adds to launched + budget exactly what rate and health give, and leaves less than a session in the budget |
| LoadShape.FourTicksMakeASecond | cmd/traffic/journey.go:169-187 | four ticks earn a second of the rate, all of it in full health and 55 percent at none, in sessions of 3.9 requests |
| LoadShape.Launcher.Accrue | cmd/traffic/journey.go:172-176 | the inner loop ends and launches all whole sessions |
| LoadShape.Launcher.Run | cmd/traffic/journey.go:158-178 | over any sequence of ticks and log wakeups launched + budget grows by the sum of what the ticks earn, and launched is its floor if the least rate is not negative |
| LoadShape.EarningsInRange | cmd/traffic/journey.go:169-172 | whatever the shocks, every tick of a sequence earns between the least rate at worst health and the ceiling in full health, and nothing else earns |
| LoadShape.SumInRange | cmd/traffic/journey.go:169-177 | the sum of n earnings lies between n times the least and n times the most, and so do the floors |
| LoadShape.RunJourneyMode | cmd/traffic/journey.go:145-179 | after any wakeups launched is the floor of the sum of the earnings, between n times the least and n times the most a tick can accrue, if the least rate is not negative |
| LoadShape.SumIsNeverNegativeIff | cmd/traffic/journey.go:169-177 | no sequence of wakeups earns a negative sum iff the minimum rate is not negative or three sigma are at most 1 |
| Latency.SortedPickIsP99 | cmd/traffic/main.go:98-106 | the picked sample is the nearest-rank percentile by counting |
| Latency.SortingKeepsCounts | cmd/traffic/main.go:98 | the sorted copy has as many samples up to any bound as the window |
| Latency.P99IsUnique | cmd/traffic/main.go:106 | no other sample satisfies that definition |
| Latency.Statistics.Record | cmd/traffic/main.go:70-80 | totals stay successes + failures, by status class |
| Latency.Statistics.Summarize | cmd/traffic/main.go:82-106 | the report is exact, the window empties, and it divides by zero iff requests were ever made but none in the window |
| Latency.Statistics.Digest | cmd/traffic/main.go:98-106 | mean and percentile of a non-empty window |
| Pickers.PickBySubtracting | cmd/traffic/journey.go:90-103 | the owner of the roll, or the first item if the roll exceeds every running total |
| Pickers.PickByAccumulating | cmd/traffic/scenario.go:52-62 | the owner of the roll, or the last item if the roll exceeds every running total |
| Pickers.PickersAgree | cmd/traffic/scenario.go:52-62 | for every weight list and roll up to the total both choose the same item and neither falls back |
| Pickers.OwnsItsInterval | cmd/traffic/scenario.go:53-59 | an item owns exactly the interval between consecutive running totals |
| Pickers.NewActionPicker | cmd/traffic/scenario.go:28-50 | which lists are refused and why; otherwise the positive actions in order with their total |
| Pickers.PickableExactlyThePositive | cmd/traffic/scenario.go:34-43 | an action can be picked iff the list gives it a positive weight |
| EcomNames.SanitizeIsClean | internal/ecom/dims.go:86-93 | only [a-z0-9_], no leading, trailing or doubled underscore |
| EcomNames.SanitizeFixesExactlyTheClean | internal/ecom/dims.go:86-93 | a label is its own sanitized form iff it is clean; sanitizing is idempotent |
| EcomNames.SanitizeKeepsAlnums | internal/ecom/dims.go:86-93 | no letter or digit is lost or reordered |
| EcomNames.SanitizeJoinsTheWords | internal/ecom/dims.go:86-93 | a sanitized label is its words in lower case joined by single underscores |
| EcomNames.AlnumExactly | internal/ecom/dims.go:86 | words are made of small letters and digits |
| EcomNames.NamesRoundTrip | internal/ecom/dims.go:95-102 | names decode at the last double underscore to family and sanitized label; global names iff the family has none |
| EcomNames.NamesCollideIff | internal/ecom/dims.go:95-102 | two names coincide iff family and sanitized label do |
| EcomNames.Catalogue.Add | internal/ecom/metrics.go:47-54 | appends one series under its encoded name |
| EcomNames.NameDeterminesSeriesIff | internal/ecom/metrics.go:47-54 | sharing a name and sharing family and dimension are the same, unless one label is missing and the other is wiped out by sanitizing |
| EcomNames.ExclamationMarkIsWipedOut | internal/ecom/dims.go:88-93 | such a label exists |
| EcomPerturb.Apply | internal/ecom/metrics.go:128-195 | the chain of conditionals is the composition of the scenarios' effects in table order |
| EcomPerturb.WhatAHitDoes | internal/ecom/metrics.go:140-194 | the change of every family by every scenario, in proportion to the intensity |
| EcomPerturb.AMatchChangesTheValue | internal/ecom/metrics.go:126-138 | a matching scenario changes a positive value |
| EcomPerturb.WhoIsHit | internal/ecom/metrics.go:129-138 | the two global scenarios hit every dimension, the others the one their target sanitizes to |
| EcomPerturb.EffectsAreOfOneKind | internal/ecom/metrics.go:140-194 | no family is scaled by one scenario and shifted by another; no factor reaches -1 |
| EcomPerturb.StepsCommute | internal/ecom/metrics.go:140-194 | any two scenarios commute on any series |
| EcomPerturb.OrderDoesNotMatter | internal/ecom/metrics.go:140-194 | the result is the same for every order of the scenarios |
| EcomPerturb.ScopedMatchIsANameMatch | internal/ecom/metrics.go:134-136 | a scoped scenario hits a series iff its target gives the series' own metric name |
| EcomPerturb.OnlyMatchingScenariosPerturb | internal/ecom/metrics.go:126-195 | a series depends only on the scenarios matching its family and dimension, and is unchanged without one |
| EcomPerturb.PositiveStaysPositive | internal/ecom/metrics.go:140-194 | with intensities in (0, 1] a positive series stays positive |
| Shopify.OrderHasProduct | internal/shopify/emitter.go:18-29 | some line item's title or product type holds the target; an empty target is in none |
| Shopify.Emitter.ApplyIncident | internal/shopify/emitter.go:72-113 | outputs and both counters for one event |
| Shopify.Emitter.Run | internal/shopify/emitter.go:58-69 | what is posted is the stream of all inputs in order, with both counters |
| Shopify.TopicsBalance | internal/shopify/emitter.go:72-113 | per topic: output + suppressed = input + cancellations or refunds |
| Shopify.StreamConserves | internal/shopify/emitter.go:72-113 | output + suppressed = input + cancellations + refunds, and at most 3 per input |
| Shopify.SlumpSuppresses | internal/shopify/emitter.go:73-82 | exactly which sales are held back |
| Shopify.MeltdownDeclines | internal/shopify/emitter.go:90-95 | a payment at the shop fails iff its draw is below the fraction, and nothing else of it changes |
| Shopify.MeltdownFansOut | internal/shopify/emitter.go:96-111 | a sale at the shop is followed by its cancellation and its refund iff their draws are below their fractions |
| Shopify.EverythingElsePasses | internal/shopify/emitter.go:84-89 | everything else is passed on as it is |
| Shopify.OtherShopsAreUntouched | internal/shopify/emitter.go:84-87 | a shop no incident is aimed at has all its events passed on unchanged and in order |
| Shopify.ExpandExplained | internal/shopify/emitter.go:89-112 | a surviving input heads its at most three outputs, followed by its cancellation, then its refund |
| Shopify.EveryEventIsExplained | internal/shopify/emitter.go:72-113 | every emitted event is a surviving input, or the cancellation or refund of the sale just before it |
| Shopify.EverySurvivorIsEmitted | internal/shopify/emitter.go:72-113 | every input not suppressed is emitted, after all outputs of earlier ones |

## Left out

- HTTP, JSON and YAML handling, tracing, metrics, logging, configuration, reports on disk: plumbing without a decided property; only the state changes of the handlers are modelled.
- The reporting form of a fault state: active types are a set here, not a sorted list, and the duration in seconds that mirrors the duration is dropped.
- Side effects of faults (CPU burn, memory ballast, log storms, process exit) are outside the state modelled.
- Phase details and elapsed times, the anchor of an analysis, and the pacing of cooldown: they do not influence a verdict.
- PaymentsBalance: counts payments whose reply is not heard or whose record is not stored instead of excluding them, because the source tolerates both; with none of either it says one completed payment per confirmed order and none per failed one.
- TimerEndsAnotherActivationIff: follows one timer whose disable does take effect; other timers appear only in the interleaved steps.
- WholeSecondCampaignClosure: assumes wakeups that are not late, as do the other campaign theorems; a late one may outlive the computed end.
- Failing database inserts other than payment records: the in-memory store fails only if a record cannot be marshalled.
- Seeds, listing, user upgrades and order item arithmetic: easy members.
- Cancellation of a queue subscriber and publishing to a closed channel.
- Time compression and the calendar: a virtual time enters as its cosines, exponential and weekday.
- Think times, abandonment and the requests a session sends.
- The incident timers of the storefront and of the ecommerce injector: they carry no guard against superseded activations, so the timer theorems do not extend to them.
- The concrete series of the ecommerce catalogue and their base values, and the noise around them.
- Ids drawn for refunds and the time written into them are inputs.
- Overflow of 64-bit durations, which need more than 292 years, and of counters.
- Unicode: case folding and trimming beyond ASCII.
