# Verification model of Apollo Silicon Reactor

Dafny models of the decision cores of the Apollo optimizer daemon, its browser extension and its
scripts, with proofs about whole runs. Each stateful component is a class whose methods are proved
against a specification function (`Observed`, `Governed`, `RegimeObserved`, `StartedNav`, `Apply`,
`Fold`, `Confirmed`, `Reaching`, ...); what the component promises is proved about the replay of that
function over every trace.

| files | component |
|---|---|
| `LevelHold.dfy`, `OverheadGovernor.dfy` | the two-lane overhead governor |
| `Selection.dfy`, `StutterSignals.dfy`, `StutterEnvelope.dfy`, `StutterTraces.dfy`, `StutterWindows.dfy`, `StutterRestoring.dfy`, `StutterDecisions.dfy` | the learned stutter envelope |
| `InsertionMap.dfy`, `NavigationTracker.dfy`, `TabQueues.dfy`, `TabQueueSafety.dfy`, `TabPlans.dfy` | the WebFlow event protocol |
| `InteractionFold.dfy` | folding performance entries into interactions |
| `RootActions.dfy`, `FreezeGate.dfy`, `ActionPipeline.dfy` | action gating from cycle to cycle |
| `WindowDataset.dfy`, `JournalTail.dfy`, `ProcessCache.dfy` | fast forms and the simple ones they agree with |
| `Wrappers.dfy`, `Sequences.dfy` | shared types and sequences |

Conventions. Floating-point numbers are exact reals; where the code asks whether a reading is finite
(the stutter envelope) readings are a datatype with infinities and a not-a-number. Instants are integers
that do not decrease. Rust's `u32` and `u64` are bounded, with saturation or wrap-around written out.
JavaScript's `Math.round` is the floor of `x + 1/2`, a `Map` is its entries in insertion order
(section 24.1 of ECMA-262), promises follow section 27.2 of ECMA-262, and the random source yields a
fresh id at each draw. Any sequence of steps of the service worker is an interleaving; a step that is
not enabled does not happen.

Main results:

* The hysteresis holds obey a comparison theorem and fall exactly when their history says so; from any
  state `2 * recovery_cycles` requests at or below a level bring the hold there, and one fewer does
  not; so do `2 * recovery_max` and two gaps of elapsed time, whatever the number of requests.
* The governor never grants less protection than requested, stutter flags and stale readings never
  touch the hard lane, and worse conditions never relax the budget at any later step, although they may
  move a request from one lane to the other and the lanes recover at different speeds.
* The stutter window and thresholds, from a fresh or a restored state, are a closed form of the
  admitted samples; each regime is the fold of its own observations; unusable observations can be
  erased; incidents never train; storing, restoring and sanitizing is the identity on every reachable
  state.
* In every interleaving the tab operations are serial and in order, no queue wedges, every queue can
  drain to nothing, and no post of a tab belongs to an older navigation than an earlier post.
* Each navigation is reported as started exactly once, and as abandoned exactly once if it was
  abandoned or closed, in every plan and in the log of every complete run.
* The freeze gate and the throttle de-duplication are closed-form predicates of the proposal history.
* What each step computes is also stated in the limits and fields themselves: the requested level, the
  nine signals, the decision of the envelope, the rounded components, the upgraded throttle.

Where a promise fails, the exact condition is proved instead, with a run that fails:

* The stutter thresholds are fewer than eight admissions old if and only if the admission counter, with
  what was restored into it, has not counted past 2^64 - 1 (or fewer than eight samples were admitted,
  or the first sixty have only just come together). A counter restored saturated never triggers a
  refresh again, and `sanitize` leaves it alone.
* At most one in twenty of the other samples exceeds a fresh threshold if and only if the percentile is
  not above 0.90. Sixty cycles of a steady CPU load of 0.80 are all learned and all exceed it.
* Two posts less than a full cycle of numbers apart are in increasing order if and only if the sequence
  counter did not wrap between them; the run of 2^53 posts wraps.
* `read_journal_tail` is documented to return the last `n` parseable lines. It does if and only if the
  last `n` pieces all parse or nothing before them does. The empty piece after a final newline is one
  of the `n`, so of a well-formed journal it returns the last `n - 1` lines; and `n == 0` returns every
  entry of the first chunk.
* The override of `observe_only` under physical pressure is documented to let freezes and throttles
  survive. It floors the mode at Conservative, which admits neither: they are admitted if and only if
  neither cognitive flag is up, whatever the pressure. Only the safe actions survive.

`apply_freeze_confirmation` keeps its promise that, without pre-emption, a freeze leaves only after two
consecutive proposing cycles. The converse is not promised: two such cycles are enough if and only if
the run of proposing cycles up to the previous one is not made of launch cycles alone.

## Model

| member | source | states |
|---|---|---|
| LevelHolds.LevelHold.constructor | src/bin/apollo-optimizerd/adaptive_overhead.rs:172-180 | a new hold is at Nominal with no recovery under way |
| LevelHolds.LevelHold.Observe | src/bin/apollo-optimizerd/adaptive_overhead.rs:183-211 | one observation in place: the whole new state, never below the request, at most one step down |
| LevelHolds.DominatesStep | src/bin/apollo-optimizerd/adaptive_overhead.rs:183-211 | the simulation relation between two holds is kept by a pair of requests |
| LevelHolds.Comparison | src/bin/apollo-optimizerd/adaptive_overhead.rs:182-212 | higher requests and stricter limits keep the relation over any two traces with the same clock |
| LevelHolds.ComparisonAtEveryStep | src/bin/apollo-optimizerd/adaptive_overhead.rs:182-212 | from the default state the stricter hold is at least as high after every prefix |
| LevelHolds.LullExists | src/bin/apollo-optimizerd/adaptive_overhead.rs:194-210 | every trace ends in an unbroken, possibly empty run of waiting requests |
| LevelHolds.LullState | src/bin/apollo-optimizerd/adaptive_overhead.rs:194-210 | the streak is the saturated length of that run and the start time that of its first request |
| LevelHolds.ExactRecovery | src/bin/apollo-optimizerd/adaptive_overhead.rs:190-210 | the level falls, by one step, if and only if the request is lower and the run is long or old enough; it rises if and only if the request is higher |
| LevelHolds.DebtIsPaid | src/bin/apollo-optimizerd/adaptive_overhead.rs:194-207 | each request at or below a level pays one unit of a debt that bounds the way down to it |
| LevelHolds.RecoveryBound | src/bin/apollo-optimizerd/adaptive_overhead.rs:194-228 | from any state twice the recovery cycles of requests at or below a level end at or below it |
| LevelHolds.RecoveryBoundIsTight | src/bin/apollo-optimizerd/adaptive_overhead.rs:194-228 | one request fewer does not reach Nominal from a reachable Constrained hold |
| LevelHolds.ElapsedRecoveryBound | src/bin/apollo-optimizerd/adaptive_overhead.rs:194-207 | from any state, twice the wall-clock limit and two gaps of elapsed time without a request above a level end at or below it |
| LevelHolds.HoldsOut | src/bin/apollo-optimizerd/adaptive_overhead.rs:194-207 | fewer requests than the recovery cycles, within less than the wall-clock limit, never lower a refreshed hold |
| LevelHolds.WaitsOut | src/bin/apollo-optimizerd/adaptive_overhead.rs:194-207 | if they all ask for less, the hold keeps its level and remembers their number and their start |
| OverheadGovernor.AdaptiveOverheadGovernor.ObserveAt | src/bin/apollo-optimizerd/adaptive_overhead.rs:233-276 | both lanes in place; the budget level is at least the request and falls at most one step |
| OverheadGovernor.RequestedLevelMeaning | src/bin/apollo-optimizerd/adaptive_overhead.rs:279-353 | Nominal and Constrained if and only if the signals stand so against the limits, in numbers, with the overlapping conditions removed |
| OverheadGovernor.SplitCoversRequest | src/bin/apollo-optimizerd/adaptive_overhead.rs:234-260 | the fixed part never exceeds the request and the higher of the two parts is the request |
| OverheadGovernor.NeverUnderProtects | src/bin/apollo-optimizerd/adaptive_overhead.rs:233-338 | after every step of every run the budget covers the current request and has dropped at most one step |
| OverheadGovernor.LanesAreIndependent | src/bin/apollo-optimizerd/adaptive_overhead.rs:262-273 | each lane is the replay of its own requests alone |
| OverheadGovernor.LanesByStandIn | src/bin/apollo-optimizerd/adaptive_overhead.rs:233-273 | the hard lane is the replay of the full requests of fresh, unflagged stand-ins that have the same signals, at rest where the sample is stale; the adaptive lane is asked for what the samples themselves request beyond them |
| OverheadGovernor.PlainSamplesAreHard | src/bin/apollo-optimizerd/adaptive_overhead.rs:233-273 | fresh samples without stutter flags drive the hard lane with their full requests and the adaptive lane with Nominal alone |
| OverheadGovernor.HardRequestHolds | src/bin/apollo-optimizerd/adaptive_overhead.rs:223-276 | after a fresh, unflagged Constrained request the budget stays Constrained through any 119 samples within 240 seconds |
| OverheadGovernor.HardRequestReleases | src/bin/apollo-optimizerd/adaptive_overhead.rs:223-276 | the 120th lower request lets the hard lane fall by one level |
| OverheadGovernor.AdaptiveRequestHolds | src/bin/apollo-optimizerd/adaptive_overhead.rs:223-276 | a request that only a flag or a stale sample makes Constrained is held for 14 samples within 30 seconds |
| OverheadGovernor.AdaptiveRequestReleases | src/bin/apollo-optimizerd/adaptive_overhead.rs:223-276 | the 15th lower request lets the adaptive lane fall by one level |
| OverheadGovernor.NonInterference | src/bin/apollo-optimizerd/adaptive_overhead.rs:233-277 | traces that differ only in stutter flags and in readings both mark stale drive the hard hold through identical states |
| OverheadGovernor.StaleReadingsNeverMatter | src/bin/apollo-optimizerd/adaptive_overhead.rs:235-247 | cached readings in stale samples influence neither lane |
| OverheadGovernor.RequestsAreMonotone | src/bin/apollo-optimizerd/adaptive_overhead.rs:279-353 | worse signals never lower the requested level |
| OverheadGovernor.CoversStep | src/bin/apollo-optimizerd/adaptive_overhead.rs:255-273 | one step keeps the relation that lets either lane stand in for the adaptive lane of a milder run |
| OverheadGovernor.WorseNeverRelaxesTheBudget | src/bin/apollo-optimizerd/adaptive_overhead.rs:233-353 | pointwise worse conditions never give a lower budget at any step of a run |
| OverheadGovernor.FlagsNeverLowerTheBudget | src/bin/apollo-optimizerd/adaptive_overhead.rs:244-275 | raising stutter flags leaves the hard hold as it was and never lowers the budget |
| OverheadGovernor.GovernorRecovers | src/bin/apollo-optimizerd/adaptive_overhead.rs:223-276 | the budget is at most the highest of the last 240 requests, the adaptive lane of the last 30, from any state |
| OverheadGovernor.GovernorRecoversInTime | src/bin/apollo-optimizerd/adaptive_overhead.rs:223-276 | in elapsed time the adaptive lane is down after a minute and two gaps, the budget after eight minutes and two gaps |
| Selection.SelectLeast | src/bin/apollo-optimizerd/adaptive_stutter.rs:306-309 | selection in place: a permutation, in order up to the selected index, partitioned there |
| Selection.SelectionFindsOrderStatistic | src/bin/apollo-optimizerd/adaptive_stutter.rs:306-309 | whatever arrangement a selection leaves, the selected element is the order statistic |
| Selection.OrderStatisticIsUnique | src/bin/apollo-optimizerd/adaptive_stutter.rs:306-309 | the order statistic is one value, so ties cannot change a threshold |
| StutterSignals.RegimeMeaning | src/bin/apollo-optimizerd/adaptive_stutter.rs:152-162 | which readings put an observation into which regime, infinities and not-a-numbers included |
| StutterSignals.NormalizedMeaning | src/bin/apollo-optimizerd/adaptive_stutter.rs:164-191 | which observations are usable, and each of the nine signals in units of the limit of the reading it comes from |
| StutterEnvelope.RegimeEnvelope.Classify | src/bin/apollo-optimizerd/adaptive_stutter.rs:237-263 | the loop computes the specified risk and largest ratio |
| StutterTraces.RiskMeaning | src/bin/apollo-optimizerd/adaptive_stutter.rs:255-261 | Constrained and Nominal if and only if so many distinct signals exceed, triple or race towards their thresholds |
| StutterWindows.AdmissionRule | src/bin/apollo-optimizerd/adaptive_stutter.rs:265-282 | a sample is learned if and only if it is usable, its cycle healthy and every signal within its hard limit, and in cold start no memory signal is above three times its floor, later it is no incident and has at most one fast rise |
| StutterEnvelope.RegimeEnvelope.Push | src/bin/apollo-optimizerd/adaptive_stutter.rs:284-297 | the bounded window, the saturating counter and the refresh, in place |
| StutterEnvelope.RegimeEnvelope.RecomputeThresholds | src/bin/apollo-optimizerd/adaptive_stutter.rs:299-313 | the thresholds become the clamped multiple of each signal's order statistic; an empty window changes nothing |
| StutterEnvelope.RegimeEnvelope.SelectPercentile | src/bin/apollo-optimizerd/adaptive_stutter.rs:304-309 | copying a column and selecting in the copy gives its order statistic |
| StutterEnvelope.RegimeEnvelope.Observe | src/bin/apollo-optimizerd/adaptive_stutter.rs:369-407 | one observation of a regime: its whole new state and the decision |
| StutterDecisions.DecisionMeaning | src/bin/apollo-optimizerd/adaptive_stutter.rs:373-407 | after any run, the reported risk, what would be guarded, the score and the sample count, in terms of the signals against their thresholds and the previous sample |
| StutterDecisions.PhaseMeaning | src/bin/apollo-optimizerd/adaptive_stutter.rs:227-235 | the phase after any run: sixty admissions end the cold start and 120 usable observations after them the shadow phase |
| StutterDecisions.ActiveAfterWarmUp | src/bin/apollo-optimizerd/adaptive_stutter.rs:227-235 | after sixty admissions any 120 usable observations activate the regime |
| StutterDecisions.ActiveIsReached | src/bin/apollo-optimizerd/adaptive_stutter.rs:227-235 | 180 calm cycles activate a fresh regime |
| StutterDecisions.PreviousIsLatest | src/bin/apollo-optimizerd/adaptive_stutter.rs:395-395 | the remembered sample is that of the latest usable observation |
| StutterEnvelope.AdaptiveStutterEnvelope.constructor | src/bin/apollo-optimizerd/adaptive_stutter.rs:343-350 | four distinct fresh regimes |
| StutterEnvelope.AdaptiveStutterEnvelope.Observe | src/bin/apollo-optimizerd/adaptive_stutter.rs:368-408 | only the observation's regime changes |
| StutterTraces.TraceProjection | src/bin/apollo-optimizerd/adaptive_stutter.rs:152-162 | after any interleaving each regime is the fold of its own observations |
| StutterTraces.Erasure | src/bin/apollo-optimizerd/adaptive_stutter.rs:164-191 | deleting stale and non-finite observations changes no state and no other decision |
| StutterWindows.AdmissionsAreHealthy | src/bin/apollo-optimizerd/adaptive_stutter.rs:265-282 | in no phase is a sample with a signal above its hard limit admitted |
| StutterWindows.RunLearnsItsAdmissions | src/bin/apollo-optimizerd/adaptive_stutter.rs:383-394 | what a run has learned depends on its admitted samples alone |
| StutterWindows.WindowRefinement | src/bin/apollo-optimizerd/adaptive_stutter.rs:284-313 | window, counter and thresholds after any run from any state are a closed form of that state and the admissions: the last 120, their saturated count, the rule at the latest refresh |
| StutterWindows.ThresholdsAreRecentExactly | src/bin/apollo-optimizerd/adaptive_stutter.rs:289-296 | after any run, fresh or restored, the latest refresh is fewer than eight admissions old if and only if the counter has not saturated past use, up to the first eight admissions and the first full sixty |
| StutterWindows.FreshRegime | src/bin/apollo-optimizerd/adaptive_stutter.rs:284-297 | a fresh regime holds the last 120 admitted samples, and its thresholds go stale if and only if it admitted more than 2^64 - 1 |
| StutterWindows.SaturatedThresholdsAreFrozen | src/bin/apollo-optimizerd/adaptive_stutter.rs:289-296 | from a full baseline with a saturated counter no observation ever changes a threshold |
| StutterWindows.SaturatedThresholdsGrowOld | src/bin/apollo-optimizerd/adaptive_stutter.rs:289-296 | a run that admits any number of samples after such a state and recomputes nothing |
| StutterWindows.LearnedThresholdDominates | src/bin/apollo-optimizerd/adaptive_stutter.rs:310-311 | thresholds stay between floor and ceiling and reach the percentile if and only if it is within the ceiling |
| StutterWindows.LearnedThresholdMeaning | src/bin/apollo-optimizerd/adaptive_stutter.rs:299-313 | a learned threshold is the value nearest to 1.35 times the percentile between the signal's floor and 0.90 |
| StutterWindows.FewSamplesExceedTheThreshold | src/bin/apollo-optimizerd/adaptive_stutter.rs:299-313 | at most one in twenty of the other samples exceeds the new threshold if and only if the percentile is at most 0.90 |
| StutterWindows.BusyBaselineExceedsItsThreshold | src/bin/apollo-optimizerd/adaptive_stutter.rs:265-313 | a run from a fresh regime whose sixty samples are all learned and whose percentile exceeds the ceiling, so the one-in-twenty bound fails |
| StutterTraces.IncidentsNeverTrain | src/bin/apollo-optimizerd/adaptive_stutter.rs:265-282 | past cold start any number and mixture of incidents leaves window, counter and thresholds unchanged |
| StutterTraces.PhaseNeverRegresses | src/bin/apollo-optimizerd/adaptive_stutter.rs:227-235 | no run takes a regime back to an earlier phase |
| StutterTraces.WarmUpCost | src/bin/apollo-optimizerd/adaptive_stutter.rs:388-393 | every admission and shadow observation up to activation is paid for by its own usable observation |
| StutterTraces.RiskNeedsWarmUp | src/bin/apollo-optimizerd/adaptive_stutter.rs:396-407 | a risk is reported only in the Active phase, after at least 180 usable observations of the regime |
| StutterRestoring.StoredEnvelope.Sanitize | src/bin/apollo-optimizerd/adaptive_stutter.rs:315-333 | the loops change the regime in place into the specified one: the newest 120 samples that are finite, clamped thresholds, a finite previous sample or none |
| StutterRestoring.SanitizedMeaning | src/bin/apollo-optimizerd/adaptive_stutter.rs:315-333 | which samples, thresholds and previous sample are left, value by value |
| StutterRestoring.SanitizedIsSound | src/bin/apollo-optimizerd/adaptive_stutter.rs:315-333 | whatever was stored, what is left is a finite regime state with a bounded window and thresholds in range |
| StutterRestoring.SoundIsKept | src/bin/apollo-optimizerd/adaptive_stutter.rs:284-313 | observation keeps the window bounded and the thresholds in range |
| StutterRestoring.SanitizeKeepsReachableStates | src/bin/apollo-optimizerd/adaptive_stutter.rs:315-366 | sanitizing a stored reachable state changes nothing |
| StutterRestoring.SaturatedIsRestored | src/bin/apollo-optimizerd/adaptive_stutter.rs:315-333 | a stored regime with a saturated counter passes `sanitize` unchanged |
| NavigationTracking.NavigationTracker.Start | extensions/apollo-webflow-chromium/protocol.js:140-156 | start in place: the new record, the one it abandons, and the trimmed maps |
| NavigationTracking.NavigationTracker.EvictExcess | extensions/apollo-webflow-chromium/protocol.js:150-154 | the eviction loop trims both maps from the oldest entry |
| NavigationTracking.NavigationTracker.Close | extensions/apollo-webflow-chromium/protocol.js:158-163 | close in place: the tab leaves both maps and its record is returned |
| NavigationTracking.TrackerIsSound | extensions/apollo-webflow-chromium/protocol.js:129-164 | over any run: equal key sets within capacity, iteration in order of latest start, the record held is the latest, and every record is held or has left |
| NavigationTracking.LeavesExactlyOnce | extensions/apollo-webflow-chromium/protocol.js:140-163 | a started navigation is still held or has departed, in total exactly once |
| NavigationTracking.EvictsLeastRecent | extensions/apollo-webflow-chromium/protocol.js:150-154 | a start evicts one tab if and only if a new tab meets a full tracker, and then the one started longest ago |
| NavigationTracking.SessionIsKept | extensions/apollo-webflow-chromium/protocol.js:142-147 | an event keeps the session of a tab that stays and gives a returning tab a fresh one |
| NavigationTracking.SessionIsConstant | extensions/apollo-webflow-chromium/protocol.js:142-163 | a tab keeps one session id while it is tracked without interruption |
| TabQueues.ServiceWorker.NextNumber | extensions/apollo-webflow-chromium/background.js:17-21 | the sequence advances by one and wraps to one past the safe integers |
| TabQueues.ServiceWorker.Enqueue | extensions/apollo-webflow-chromium/background.js:36-43 | the operation is chained onto the tab's current promise, which it replaces |
| TabQueues.ServiceWorker.OnBeforeNavigate | extensions/apollo-webflow-chromium/background.js:83-90 | a top-frame navigation starts a record and plans the abandoned and started events |
| TabQueues.ServiceWorker.OnLifecycle | extensions/apollo-webflow-chromium/background.js:92-110 | a lifecycle event captures the tab's record when it happens |
| TabQueues.ServiceWorker.OnRemoved | extensions/apollo-webflow-chromium/background.js:112-115 | a closed tab leaves the tracker and its last record is abandoned |
| TabQueues.ServiceWorker.OnVitals | extensions/apollo-webflow-chromium/background.js:117-129 | vitals capture the tab's record when they arrive |
| TabQueues.ServiceWorker.EmitNext | extensions/apollo-webflow-chromium/background.js:65-81 | the synchronous part of an emission: number, then post, swallowed failure or throw |
| TabQueues.ServiceWorker.OnSettled | extensions/apollo-webflow-chromium/background.js:40-42 | the cleanup removes the queue entry only if it is still this operation's |
| TabQueueSafety.QueuesAreSound | extensions/apollo-webflow-chromium/background.js:36-43 | chaining, seriality and the meaning of the tail hold in every interleaving |
| TabQueueSafety.OperationsAreSerial | extensions/apollo-webflow-chromium/background.js:36-43 | at most one operation of a tab in flight, started only after all earlier ones have settled |
| TabQueueSafety.TabsNeverWedge | extensions/apollo-webflow-chromium/background.js:36-43 | a tab with unsettled work always has an operation that can advance |
| TabQueueSafety.QueuesDrain | extensions/apollo-webflow-chromium/background.js:39-42 | when all operations have settled and cleaned up, the queue map is empty |
| TabQueueSafety.QueuesCanDrain | extensions/apollo-webflow-chromium/background.js:36-43 | from any reachable worker advances alone settle and clear every operation, in exactly as many steps as there is work, and leave the queue map empty |
| TabQueueSafety.LogIsNumbered | extensions/apollo-webflow-chromium/background.js:17-21 | each post carries the number of its call, and later posts come from later calls |
| TabQueueSafety.NumbersIncreaseUntilTheWrap | extensions/apollo-webflow-chromium/background.js:17-34 | posted numbers strictly increase across all tabs while the counter has not wrapped |
| TabQueueSafety.NumbersIncreaseExactlyWithoutAWrap | extensions/apollo-webflow-chromium/background.js:17-34 | for posts less than a cycle apart the order is right if and only if no wrap lies between them |
| TabQueueSafety.TheWrapReversesTheOrder | extensions/apollo-webflow-chromium/background.js:17-21 | a run of one post more than there are safe integers ends with a number lower than the one before |
| TabQueueSafety.PostsFollowPlans | extensions/apollo-webflow-chromium/background.js:65-129 | every post is a planned emission, posted at most once and in plan order within its tab |
| TabQueueSafety.DrawsAreCounted | extensions/apollo-webflow-chromium/background.js:65-81 | every emission that happens draws a number, posted or not, and the posts are those with that outcome |
| TabQueueSafety.OutcomesCompared | extensions/apollo-webflow-chromium/background.js:23-34 | a swallowed emission continues its operation like a posted one, and a thrown one ends it like a rejected wait |
| TabQueueSafety.FailureEndsTheOperation | extensions/apollo-webflow-chromium/background.js:36-43 | after a throw or a rejected wait the operation never posts again, however the run goes on |
| TabQueueSafety.WorkerRunsTheTracker | extensions/apollo-webflow-chromium/background.js:83-115 | the worker's tracker is the plain tracker run on its navigation and removal events |
| TabQueueSafety.NavigationsAreSound | extensions/apollo-webflow-chromium/background.js:83-129 | planned emissions of a tab never go back to an older navigation |
| TabQueueSafety.NoStaleNavigation | extensions/apollo-webflow-chromium/background.js:65-129 | a later post of a tab never belongs to an older navigation |
| TabPlans.PlansFollowTheTracker | extensions/apollo-webflow-chromium/background.js:83-115 | in every interleaving the records planned as started are those the tracker started, and those planned as abandoned are those it abandoned or closed, each in order |
| TabPlans.StartedComesLast | extensions/apollo-webflow-chromium/background.js:86-89 | a started record is the last emission of its operation |
| TabPlans.LifecyclePlansHeld | extensions/apollo-webflow-chromium/background.js:92-110 | a top-frame lifecycle event plans exactly the record held for its tab, with its own phase, or nothing |
| TabPlans.VitalsPlanHeld | extensions/apollo-webflow-chromium/background.js:117-129 | a vitals message plans exactly the held record as settled |
| TabPlans.RemovalPlansHeld | extensions/apollo-webflow-chromium/background.js:112-115 | a closed tab plans exactly the held record as abandoned |
| TabPlans.OtherFramesAreIgnored | extensions/apollo-webflow-chromium/background.js:83-103 | events of other frames change nothing |
| TabPlans.NavigationsArePlannedOnce | extensions/apollo-webflow-chromium/background.js:83-115 | each navigation is planned as started exactly once, and as abandoned exactly once if it was abandoned or closed, never while held or when evicted |
| TabPlans.NavigationsArePostedOnce | extensions/apollo-webflow-chromium/background.js:65-115 | of a settled run that posts all its emissions the log says the same |
| InteractionFold.FoldedInteractions.FoldInteractions | extensions/apollo-webflow-chromium/protocol.js:176-205 | a batch folded in place is the fold of its entries |
| InteractionFold.FoldsBatchByBatch | extensions/apollo-webflow-chromium/protocol.js:176-178 | folding a concatenation equals folding batch by batch |
| InteractionFold.TracksFirstIds | extensions/apollo-webflow-chromium/protocol.js:180-185 | the tracked ids are the first 256 distinct nonzero ids, in order of appearance |
| InteractionFold.RecordsTheWorstEntry | extensions/apollo-webflow-chromium/protocol.js:186-202 | each interaction has the maximum rounded duration, the components of the earliest entry attaining it, and the count of its entries |
| InteractionFold.InteractionMeaning | extensions/apollo-webflow-chromium/protocol.js:186-202 | each total and component is its own interval of the earliest longest entry, rounded a half up and never negative; the flag is that entry's and the count that of the id |
| InteractionFold.EntriesAreConserved | extensions/apollo-webflow-chromium/protocol.js:179-204 | entry counts and drops add up to the entries with an id |
| InteractionFold.InpSetsAsideOneInFifty | extensions/apollo-webflow-chromium/protocol.js:207-213 | the estimate is the longest latency left after setting aside one interaction in fifty, for any number of them |
| InteractionFold.FoldedInteractions.ComponentTotals | extensions/apollo-webflow-chromium/protocol.js:215-223 | the loop sums each component |
| InteractionFold.ComponentsReconcile | extensions/apollo-webflow-chromium/protocol.js:186-199 | the three rounded components of a well-timed entry differ from its total by at most one |
| InteractionFold.TotalsReconcile | extensions/apollo-webflow-chromium/protocol.js:186-223 | over well-timed entries the sums differ by at most the number of interactions |
| InteractionFold.ReconciliationIsTight | extensions/apollo-webflow-chromium/protocol.js:192-199 | one millisecond is attained, and missing processing times break the bound by any amount |
| FreezeGates.FreezeGate.ApplyFreezeConfirmation | src/bin/apollo-optimizerd/daemon_freeze_executor.rs:111-191 | one cycle in place: what leaves the gate and the new counters |
| FreezeGates.FreezeGate.Admit | src/bin/apollo-optimizerd/daemon_freeze_executor.rs:162-182 | the test of one action and the capped count it leaves |
| FreezeGates.ConfirmedFreezes | src/bin/apollo-optimizerd/daemon_freeze_executor.rs:159-183 | in a cycle a process gets its first proposal if it is confirmed and otherwise nothing |
| FreezeGates.OtherActionsPass | src/bin/apollo-optimizerd/daemon_freeze_executor.rs:179-181 | all other actions pass unchanged and in order |
| FreezeGates.GateTracksHistory | src/bin/apollo-optimizerd/daemon_freeze_executor.rs:173-188 | the counters hold exactly the processes whose run has a cycle without a launch, all proposed in the latest cycle, with the capped number of such cycles |
| FreezeGates.FreezeGateIsExact | src/bin/apollo-optimizerd/daemon_freeze_executor.rs:111-191 | after any history the first proposal leaves if and only if no launch is active and the cycle is pre-emptive or the run has an earlier cycle without a launch |
| FreezeGates.TwoProposalsAreNecessary | src/bin/apollo-optimizerd/daemon_freeze_executor.rs:88-94 | without pre-emption a freeze leaves only if this and the previous cycle propose it and no launch is active |
| FreezeGates.TwoProposalsSufficeExactly | src/bin/apollo-optimizerd/daemon_freeze_executor.rs:88-94 | two consecutive proposals suffice if and only if the unbroken run up to the previous cycle has a cycle without a launch |
| FreezeGates.LaunchCyclesDoNotCount | src/bin/apollo-optimizerd/daemon_freeze_executor.rs:162-178 | any number of launch cycles and then an ordinary one, all proposing, let nothing leave |
| ActionPipeline.FilterActionsForMode | src/bin/apollo-optimizerd/daemon_action_pipeline.rs:145-169 | admitted and blocked actions in order, with the reason of the mode |
| ActionPipeline.AdmitsMeaning | crates/apollo-engine/src/engine/degradation.rs:94-107 | what each of the four modes admits |
| ActionPipeline.ModeBlocks | src/bin/apollo-optimizerd/daemon_action_pipeline.rs:145-169 | what the mode blocks is what it does not admit, in order, with the reason of the mode |
| ActionPipeline.UpgradeCausalQosActions | src/bin/apollo-optimizerd/daemon_action_pipeline.rs:87-123 | each matching freeze is upgraded in place, and they are counted |
| ActionPipeline.UpgradesAreCounted | src/bin/apollo-optimizerd/daemon_action_pipeline.rs:87-123 | the count is that of the listed freezes proposed in full mode |
| ActionPipeline.DedupThrottleActions | src/bin/apollo-optimizerd/daemon_action_pipeline.rs:125-143 | throttles of the previous cycle's processes are blocked and all throttled processes remembered |
| ActionPipeline.GatedModeMeaning | src/bin/apollo-optimizerd/daemon_action_pipeline.rs:222-263 | the mode of a cycle from the degraded mode, the two flags, the swap risk and the memory pressure |
| ActionPipeline.GatesOnlyRestrict | src/bin/apollo-optimizerd/daemon_action_pipeline.rs:222-263 | the cognitive gates admit nothing the degraded mode rejects and act on the full mode alone |
| ActionPipeline.OverrideKeepsOnlySafeActions | src/bin/apollo-optimizerd/daemon_action_pipeline.rs:227-263 | a physically critical machine keeps the safe actions, but freezes and throttles are admitted if and only if neither flag is up |
| ActionPipeline.FilterPipeline.RunFilterPipeline | src/bin/apollo-optimizerd/daemon_action_pipeline.rs:238-304 | the gates and the three stages in sequence, and the remembered set they leave |
| ActionPipeline.ActionsAreConserved | src/bin/apollo-optimizerd/daemon_action_pipeline.rs:87-169 | every proposal ends exactly once in filtered or blocked: an admitted freeze of a listed process as an aggressive throttle of the same process, field by field, and everything else unchanged |
| ActionPipeline.OthersPass | src/bin/apollo-optimizerd/daemon_action_pipeline.rs:125-169 | admitted proposals that throttle nothing pass unchanged and in order |
| ActionPipeline.RememberedExactly | src/bin/apollo-optimizerd/daemon_action_pipeline.rs:280-289 | what is remembered is exactly the processes that the proposals of the last cycle throttle, natively or by the upgrade |
| ActionPipeline.OnlyTheFirstCyclePasses | src/bin/apollo-optimizerd/daemon_action_pipeline.rs:265-296 | over any run the throttles proposed for a process pass, each as it comes out, if and only if none was proposed in the cycle before |
| ActionPipeline.ReducedModeForgets | src/bin/apollo-optimizerd/daemon_action_pipeline.rs:265-296 | a cycle in a reduced mode lets no throttle reach the de-duplication and empties its memory |
| WindowDataset.MakeSequences | scripts/train_transformer.py:152-170 | the windows of one dump, or an error when there is none |
| WindowDataset.WindowRows | scripts/train_transformer.py:152-170 | where a dump has windows, and each row of their inputs and targets |
| WindowDataset.EagerCount | scripts/train_transformer.py:173-175 | the number of all windows is the sequence count |
| WindowDataset.TelemetryWindowDataset.constructor | scripts/train_transformer.py:320-326 | the kept dumps and their running totals |
| WindowDataset.TelemetryWindowDataset.Len | scripts/train_transformer.py:328-329 | the length is the number of windows of all dumps |
| WindowDataset.TelemetryWindowDataset.GetItem | scripts/train_transformer.py:331-340 | the lazy lookup is the eager list of windows, index by index, an index error past its end, and a plain slice of the first kept dump for a negative index |
| WindowDataset.NegativeIndex | scripts/train_transformer.py:331-340 | that slice is a window of the dump if and only if it reaches back more than `seq_len + 1` rows and not past the start; otherwise a part has the wrong length |
| WindowDataset.NegativeItem | scripts/train_transformer.py:331-336 | the dump that a negative index slices is the first one that is long enough |
| WindowDataset.WindowAt | scripts/train_transformer.py:331-340 | the position of each window, dump by dump and inside its dump |
| WindowDataset.PositionsAreDistinct | scripts/train_transformer.py:331-340 | no window is enumerated twice |
| WindowDataset.SplitForTraining | scripts/train_transformer.py:351-371 | the halves are two data sets over disjoint nonempty ranges of dumps, or two subsets of one data set when there is a single dump; an empty half is an error |
| WindowDataset.SplitFileMeaning | scripts/train_transformer.py:354-357 | the training half of the dumps is the whole part of its share, but at least one dump and not all |
| WindowDataset.TrainCountMeaning | scripts/train_transformer.py:358-363 | of the windows of a single dump at least one and otherwise the whole part of the share is kept for validation |
| WindowDataset.SplitIsComplete | scripts/train_transformer.py:354-357 | the windows of the two ranges of dumps are together the windows of all |
| WindowDataset.SingleDumpSharesRows | scripts/train_transformer.py:358-363 | with one dump the last training target is the first validation input |
| JournalTail.ReadJournalTail | scripts/apollo-regression-probe.py:130-164 | the doubling reader returns the parseable entries among the last `n` pieces of the whole file, and for `n` not positive what the slice leaves of the first chunk |
| JournalTail.EntryMeaning | scripts/apollo-regression-probe.py:156-163 | the entry of a piece is what the parser makes of it without the white space at its ends, and a blank piece has none |
| JournalTail.NegativeDropsTheFirst | scripts/apollo-regression-probe.py:141-156 | a negative count drops that many pieces of the first chunk |
| JournalTail.TailSuffices | scripts/apollo-regression-probe.py:144-152 | whatever the chunk alignment, enough whole lines at the end are the last pieces of the file |
| JournalTail.SplitAtNewline | scripts/apollo-regression-probe.py:148-149 | splitting at any newline splits the list of pieces |
| JournalTail.SplitRoundTrip | scripts/apollo-regression-probe.py:149-149 | joining the pieces gives the file back and no piece contains a newline |
| JournalTail.LastEntriesExactly | scripts/apollo-regression-probe.py:130-164 | the result is the last `n` parseable lines if and only if the last `n` pieces all parse or nothing before them does |
| JournalTail.ZeroAsksForEverything | scripts/apollo-regression-probe.py:141-156 | `n == 0` returns every entry of the first chunk, of a file of up to 64 KiB every entry, and nothing if and only if nothing there parses |
| JournalTail.FinalNewlineCostsALine | scripts/apollo-regression-probe.py:149-156 | after a final newline `n` lines give what `n - 1` gave before it, and one line gives nothing |
| JournalTail.WellFormedJournal | scripts/apollo-regression-probe.py:149-163 | of a journal of parseable lines, each ended by a newline, a request for `n` returns the last `n - 1` |
| ProcessCache.SystemCollector.RebuildTopProcessesCache | crates/apollo-engine/src/collector.rs:182-206 | the cache becomes a top list of the table, with the readings of sort-then-take |
| ProcessCache.SystemCollector.CollectSnapshotLight | crates/apollo-engine/src/collector.rs:341-420 | the list returned is a top list of the table as of the last refresh, and when that was |
| ProcessCache.SystemCollector.CollectSnapshot | crates/apollo-engine/src/collector.rs:212-301 | the same for the full snapshot with its grace period |
| ProcessCache.SystemCollector.CollectSnapshotNoProcessRefresh | crates/apollo-engine/src/collector.rs:463-517 | the same for the snapshot that never refreshes |
| ProcessCache.TopOfPartition | crates/apollo-engine/src/collector.rs:195-205 | sorting the front of any selection agrees with sorting everything and taking ten |
| ProcessCache.TopIsBusiest | crates/apollo-engine/src/collector.rs:195-205 | a top list descends and nothing left out is busier |
| ProcessCache.TopIsTen | crates/apollo-engine/src/collector.rs:182-206 | the list has ten processes of the table, or all of a shorter one |
| ProcessCache.RefreshIsDue | crates/apollo-engine/src/collector.rs:223-240 | from any counter value, more light calls than the exact bound contain a refresh, with or without full snapshots in between |
| ProcessCache.EightLightCallsRefresh | crates/apollo-engine/src/collector.rs:352-367 | under any pressures eight light calls contain a refresh, across the wrap-around of the counter |
| ProcessCache.FifteenLightCallsRefresh | crates/apollo-engine/src/collector.rs:223-240 | with full snapshots in between fifteen light calls do, and eight unless the counter is within seven of its maximum |
| ProcessCache.FourLightCallsRefresh | crates/apollo-engine/src/collector.rs:352-367 | under pressures from 0.65 on four light calls contain a refresh |
| ProcessCache.EveryLightCallRefreshes | crates/apollo-engine/src/collector.rs:352-367 | under pressures from 0.80 on the first light call refreshes, whatever comes before it |
| ProcessCache.PaceIsTight | crates/apollo-engine/src/collector.rs:352-367 | below 0.80 three light calls need not refresh |
| ProcessCache.SnapshotGrace | crates/apollo-engine/src/collector.rs:223-240 | of the full snapshots of a new collector the first three do not refresh and the fourth does |
| ProcessCache.QuietTraceIsQuiet | crates/apollo-engine/src/collector.rs:223-240 | the bound is attained from every counter value: up to fourteen light calls pass without a refresh, seven on each side of a snapshot at zero |

## Left out

- Floating-point rounding and NaN in the governor, the collector and the extension; 0.98 is the exact rational.
- OverheadGovernor.AdaptiveOverheadGovernor.ObserveAt: of the budget only the level is returned; the tables of cadences and deadlines, `admits` and speculation shedding would only add easy members.
- ActionPipeline.FilterPipeline.RunFilterPipeline: the mode of the degradation controller, which depends on the circuit breaker and on CPU readings, is an input.
- `StutterObservation::from_overhead`, the snapshot file, its version number and the writer thread.
- TabQueues.ServiceWorker.OnBeforeNavigate: the URL is dropped, because it only feeds the site bucket of the `started` event.
- TabQueues.ServiceWorker.OnLifecycle: the error class of a failed navigation is dropped; it is payload that no other step reads.
- TabQueues.ServiceWorker.OnVitals: metrics, transport timings, queue depth and the cold-start flag are dropped; they are payload that no other step reads.
- TabQueues.ServiceWorker.EmitNext: whether the event is posted, swallowed in `postNative` or thrown before it is a parameter, because it depends on the native port and on the encoded size.
- TabQueues.ServiceWorker: the promise steps (start, reject, finish, settle) belong to the JavaScript runtime and exist in the step system only; the awaited hash may reject.
- Order of microtasks: the step system allows every interleaving, also ones that the runtime would not schedule.
- InteractionFold.FoldedInteractions.FoldInteractions: the map inside the fold state is a value; a caller that kept the old state object would see the shared map change.
- ProcessCache.SystemCollector.CollectSnapshot: the plain increment of the counter is modelled as wrapping, as in a release build; a debug build panics at the maximum.
- The EMA of compressor pressure, swap and refault rates, which are independent of the cached list.
- The TTL unfreeze sweep, dispatch, dashboards, syscalls, model training and export.
