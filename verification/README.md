# pvc-autoscaler: a verified model

`pvc-autoscaler` grows the storage request of PersistentVolumeClaims (claims) when they fill up,
lowers it again when the storage driver rejects an expansion, and detaches volumes that can only be
resized offline by evicting and gating pods. This project models that logic in Dafny 4.11 and proves
what it guarantees over whole runs. `dafny verify dfyconfig.toml` checks everything.

Main results, hardest first:

- **Single flight, for the whole cluster.** Through every sequence of ticks (any number of
  autoscaler objects, in any order, with status patches that succeed or fail), bindings,
  completions and edits of autoscaler objects, no claim has two expansions outstanding, and no
  request falls below the capacity, even if the driver completes between the runner's read and its
  patch (`SingleFlightEverywhere` for all claims at API-call granularity, of which the runs of
  whole ticks are special cases by `RunIsInterleaving`; `ClusterSingleFlight`, `SingleFlight`).
- **No endless oscillation.** Every interleaving of scale-ups, reductions and completions changes
  a request at most `(1 + ceil(log2 g)) * r` times, for room `r` and gap `g` in gibibytes, for one
  claim, for every claim of a cluster run and for every claim of an interleaved run
  (`NoEndlessOscillation`, `ClusterWritesBounded`, `WritesBoundedEverywhere`); repeated recovery settles in `ceil(log2 gap)` patches, and that is
  exact (`RecoveryConverges`).
- **Determinism.** The outcome of a tick depends neither on the order in which Go iterates the
  objects nor on the order in which claims were fetched, down to the text of the conditions; the
  order in which objects are listed shows in nothing but that text (`TickIsDeterminate`,
  `TickIgnoresOrders`).
- **Unique ownership** is inductive over ticks and edits; a tick keeps it if and only if no
  handover is lost to a failed status patch (`OwnersUniqueForever`, `TickKeepsOwnersIff`).
- **Cooldown.** Scale-ups of a claim are at least the cooldown apart over claim runs and cluster
  runs, as long as no stamp is lost and no other object takes the claim over past its owner; the
  events and ticks that lose a stamp, and the takeovers, are characterised exactly
  (`CooldownHolds`, `ClusterCooldownHolds`, both `StampKeptIff`, `GrowthOfListed`).
- **Offline resize.** A gated pod is never forgotten if and only if the reconciler abandons no
  claim, which is characterised on states; a gate lasts while all claims of the pod are stuck;
  evictions in a stuck window are bounded by the pods active at its start (`TrackedStepIff`,
  `AbandonsIff`, `GateSafety`, `BoundedEviction`).
- **Exact decisions.** When a claim is grown or reduced, to what size, what is recorded and what is
  said about it are characterised in both directions on the claim, the report and the policy
  (`GrowIff`, `ReduceIff`, `ScaleUpExactly`, `WrittenIff`, `ResizingExactly`, `FailureExactly`); after
  a tick the status of an object tells exactly that, and conditions never pile up over runs
  (`StatusAfterTick`, `OnePerKindForever`).
- **One observation, one scale-up; quiescence** (`OneObservationOneGrowth`,
  `ClusterOneObservation`, `OldReportStartsGrowthIff`, `QuiescentWhenSatisfied`).

## Structure

| file | content |
|---|---|
| `Api.dfy` | claims, policies, recommendations, metrics |
| `Sizing.dfy`, `Recovery.dfy` | size arithmetic, recovery target and its convergence |
| `ClaimLogic.dfy`, `ClaimRuns.dfy` | the decision about one claim, and runs of one claim at API-call granularity |
| `Ordering.dfy`, `Conditions.dfy`, `Recommendations.dfy` | sorting, condition aggregation, recommendation lists |
| `Visiting.dfy`, `Tick.dfy`, `Ownership.dfy` | one autoscaler object, one tick, ownership over many ticks |
| `Periodic.dfy` | the loops of the runner over mutable state, proved against the above |
| `Outcomes.dfy` | what a tick writes and says, exactly: per claim, per object, over runs |
| `FetchOrder.dfy` | orders of listing and fetching do not influence a tick |
| `Refinement.dfy`, `ClusterCooldown.dfy` | ticks are runs of single claims; single flight, bounded writes, one observation and cooldown for the cluster |
| `Interleaving.dfy` | all claims at API-call granularity, driver actions anywhere; cluster runs are special cases |
| `PvcFetcher.dfy` | resolving a target to distinct claims |
| `OfflineResize.dfy`, `OfflineRuns.dfy` | reconciler, webhook, filters and mappers; runs of the protocol |

## Modelling choices

- Sizes are exact integers, with 1Gi = 2^30 bytes; 64-bit overflow is not modelled. Percentages and
  the step are computed in exact rational arithmetic, where the program uses float64.
- Reads, lookups, list orders, metrics, clocks and the fate of every write are inputs (`World`,
  `Outside`, the events of the run models). Reads are fresh. Glob matching and message wording are
  parameters; provider error texts are reduced to two booleans.
- In `ClaimRuns` a patch lands later than the read it rests on, and the driver may act in between;
  a reduction carries the version it was computed from, a scale-up does not.
- The storage driver binds a claim and completes an expansion at exactly the requested size, and nobody else edits
  requests or the annotation: the single-flight and staleness results rest on that.
- A reconcile call of the offline-resize controller is one step; its loops are modelled call by
  call inside that step.

Where the program's own documentation says more than the code does, the code is followed:

- "Any storage request is divisible by 1Gi" (internal/common/common.go:46-48) fails exactly when the
  target is clamped to an unaligned maximum: `ScaleUpSound`, `UnalignedRequest`.
- "Off turns off resizing" (README.md:107): a failed expansion is still reduced: `OffWritesIff`,
  `OffStillPatches`.
- A gate "left behind" is meant to be removed regardless of policy
  (internal/controller/offlineresize/reconciler.go:154-157), but a claim that is dropped from the
  queue while stuck is not seen again when its error clears: `TrackedStepIff`,
  `AbandonedPodStaysGated`.
- "A gated pod stays gated while a claim of it is stuck" fails for pods with a healthy second claim:
  `GateRemovedIff`, `HealthySiblingUngates`.
- "Duration to wait before another scale-up" (README.md:95): the wait can be skipped in three ways.
  The time of the last scale-up is lost when the entry is dropped (failed fetch, claim no longer
  fetched, no policy) or when the status patch after the scale-up fails, and in no other case
  (`ClaimRuns.StampKeptIff`, `ClusterCooldown.StampKeptIff`, `LostStampLosesCooldown`). And an object
  that takes the claim over does not know the stamp of the previous owner, even if that owner still
  lists the claim because its own status patch fails (`GrowthOfListed`, `TakeoverLosesHandover`,
  `TakeoverSkipsCooldown`).
- The comments on recovery promise it for NodeResizeError messages too
  (internal/expansionfailure/expansionfailure.go:51-54, 71-75); a claim whose only sign of failure is
  such a message is not recovered: `RecoversAsDocumentedIff`.
- Pods "not owned by a workload controller are skipped"
  (internal/controller/offlineresize/reconciler.go:196-197): nothing looks at the owner, so such a pod
  is evicted whenever its eviction is accepted: `UncontrolledSkippedIff`, `UncontrolledEvicted`.

## Model

| member | source | states |
|---|---|---|
| `Api.GetCondition` | internal/utils/utils.go:63-71 | the first condition of a kind, and none exactly when no condition has that kind |
| `Sizing.RoundedTargetIsLeast` | internal/periodic/periodic.go:676-680 | the target is the least 1Gi multiple that covers both the percentage step and the absolute step |
| `Sizing.RoundedTargetGrows` | internal/periodic/periodic.go:676-680 | before clamping a scale-up is at least 5% and at least 1Gi |
| `Sizing.ScaleUpSound` | internal/periodic/periodic.go:676-706 | a resize is refused exactly at max capacity; otherwise the target is in [request + 1Gi, max], and aligned exactly when not clamped or the maximum is aligned |
| `Sizing.ScaleUpExactly` | internal/periodic/periodic.go:676-706 | with 1Gi of headroom the size is the smaller of the maximum and the least 1Gi multiple covering the policy's steps, and no other size is; with less there is none |
| `Sizing.UnalignedRequest` | internal/periodic/periodic.go:694-703 | a concrete request that is not divisible by 1Gi |
| `Sizing.StaleIff` | internal/periodic/periodic.go:551-557 | a report is stale exactly when it is off by more than 4% and by more than 0.5Gi, in either direction |
| `Sizing.OldReportAcceptedIff` | internal/periodic/periodic.go:551-557 | a report of the old size is accepted after growth exactly when growth was at most a twenty-fourth |
| `Sizing.GrowthEscapesTolerance` | internal/periodic/periodic.go:551-557 | after any unclamped scale-up, reports of the old size are stale |
| `Sizing.ThresholdExact` | internal/metrics/source/source.go:54-94 | the truncated percentage exceeds a threshold exactly when the exact utilization does |
| `Sizing.TruncatedExactly` | internal/metrics/source/source.go:54-94 | the conversion to an integer rounds toward zero, for negative figures too |
| `Sizing.GrowthNeverRaisesUsage` | internal/metrics/source/source.go:54-94 | growing a volume with the same content never raises the used percentage |
| `Recovery.RecoversAsDocumentedIff` | internal/expansionfailure/expansionfailure.go:51-78 | the actual recovery test differs from the documented one exactly on claims that only have a node-side limit error, and every claim can get into that state |
| `Recovery.ReducedExactly` | internal/expansionfailure/expansionfailure.go:101-116 | recovery is a no-op exactly at or below the least request; otherwise it writes the least 1Gi multiple at least 1Gi and half the failed step above the capacity, which is strictly smaller |
| `Recovery.ReducedHalvesGap` | internal/expansionfailure/expansionfailure.go:107-110 | each reduction halves the gap to the capacity, exactly so on aligned sizes |
| `Recovery.RecoveryConverges` | internal/expansionfailure/expansionfailure.go:95-116 | repeated recovery settles at the least request within ceil(log2(gap)) patches, and in exactly that many on aligned sizes |
| `Recovery.RecoveryFindsFeasible` | internal/expansionfailure/expansionfailure.go:95-116 | if the driver can serve the least request, recovery arrives at a request it can serve and gives away at most half of the growth it would allow |
| `Recovery.CeilLog2IsLog` | internal/expansionfailure/expansionfailure.go:107-109 | the bound's logarithm is the least exponent whose power of two reaches its argument |
| `ClaimLogic.JudgeKeepsMemory` | internal/periodic/periodic.go:518-560 | a decision never touches the name or the last-resize time of an entry |
| `ClaimLogic.ObjectionExactly` | internal/periodic/periodic.go:592-636 | a claim is eligible exactly when it has a size within the maximum, a class that allows expansion, and is a bound file system; otherwise the first unmet requirement is named |
| `ClaimLogic.RecordedExactly` | internal/periodic/periodic.go:518-560 | a claim is judged exactly when it is eligible with a usable report; the entry then holds size and figures and keeps name, stamp and, unless Off publishes one, target |
| `ClaimLogic.ReduceIff` | internal/periodic/periodic.go:450-469 | for every strategy, a claim is reduced exactly when it is eligible with a usable report, its expansion failed, recovery is supported and the request is above the least one |
| `ClaimLogic.GrowIff` | internal/periodic/periodic.go:471-507 | a claim is grown exactly when it is eligible with a usable report, healthy, idle, above the threshold, under a resizing strategy, with headroom and out of cooldown; the size is the policy's step |
| `ClaimLogic.OffTargetExactly` | internal/periodic/periodic.go:484-495 | the target published under Off is the size a resize would ask for, exactly when the claim wants more and has headroom |
| `ClaimLogic.NoteExactly` | internal/periodic/periodic.go:710-786 | which status and remark a claim that is left alone gets, and when it gets none |
| `ClaimLogic.GrowImplies` | internal/periodic/periodic.go:450-507 | a scale-up is decided only on an eligible claim with no resize in flight, on a fresh report, out of cooldown, strategy on, with the policy's target, beyond the staleness tolerance or at max |
| `ClaimLogic.GrowReasonExact` | internal/periodic/periodic.go:873-888 | the reason given is the utilization that exceeds the threshold, space before inodes |
| `ClaimLogic.ReduceImplies` | internal/periodic/periodic.go:450-469 | a reduction is decided only for a failed expansion and stays at least 1Gi above the capacity |
| `ClaimLogic.OffWritesIff` | internal/periodic/periodic.go:450-495 | with strategy Off a claim never grows and is reduced exactly when it is eligible with a usable report, its expansion failed, recovery is supported and the request is above the least one |
| `ClaimLogic.OffStillPatches` | internal/periodic/periodic.go:450-469 | a concrete claim patched under strategy Off |
| `ClaimRuns.SingleFlightStep` | internal/periodic/periodic.go:750-781 | requests rise only on idle claims and fall only in flight, never below the least request |
| `ClaimRuns.SingleFlight` | internal/periodic/periodic.go:803-820 | every reachable state is unbound, idle or has one expansion outstanding, the annotation test tells which, and the request is never below the capacity |
| `ClaimRuns.LockNeeded` | internal/expansionfailure/expansionfailure.go:131-138 | a reduction that raced with a completion is discarded by the version check; applied, it would undercut the capacity |
| `ClaimRuns.WritesWithinBudget` | internal/periodic/periodic.go:450-507 | the writes of a run never exceed a budget that each write lowers |
| `ClaimRuns.NoEndlessOscillation` | internal/periodic/periodic.go:450-507 | an explicit bound on the writes of every run from an idle or unbound claim |
| `ClaimRuns.OneObservationOneGrowth` | internal/periodic/periodic.go:547-557 | after a landed scale-up, while the request stays beyond the tolerance of the old size, no report of that size or less starts another one; without a reduction it stays there |
| `ClaimRuns.ReadyGrowsIff` | internal/periodic/periodic.go:471-507 | on a ready claim with an overfull report, exactly a stale report, missing headroom or the cooldown prevent a scale-up |
| `ClaimRuns.OldReportStartsGrowthIff` | internal/periodic/periodic.go:547-557 | a report of a smaller size starts a scale-up on a ready claim exactly when the claim is not beyond that size, that is, at most a twenty-fourth larger (for sizes 1Gi or more apart) and with headroom |
| `ClaimRuns.ReductionReopensReport` | internal/periodic/periodic.go:547-557 | a concrete run in which, after a reduction, one report causes two scale-ups |
| `ClaimRuns.StampKeptIff` | internal/periodic/periodic.go:822-833 | the entry holds the time of the last scale-up after an event exactly when the event neither drops the entry nor fails to store a new time |
| `ClaimRuns.CooldownHolds` | internal/periodic/periodic.go:913-935 | scale-ups of a run that loses no stamp are pairwise at least the cooldown apart |
| `ClaimRuns.LostStampLosesCooldown` | internal/periodic/periodic.go:327-329 | concrete runs in which a dropped entry and a failed status patch let the cooldown be skipped |
| `ClaimRuns.RoundExactly` | internal/periodic/periodic.go:471-507 | a look-land-complete round changes nothing exactly when utilizations are at or below the threshold or there is no headroom |
| `ClaimRuns.QuiescentWhenSatisfied` | internal/periodic/periodic.go:471-507 | with faithful metrics and constant usage, growth stops within the room in gibibytes, in a satisfied state |
| `Ordering.LeqIff` | internal/periodic/conditions.go:114 | the order of texts is the lexicographic one |
| `Ordering.SortedUnique` | internal/periodic/conditions.go:114-117 | sorting has one possible result once keys determine values |
| `Conditions.JoinAllIsLub` | internal/periodic/conditions.go:102-112 | the aggregated status is the least upper bound under Unknown < False < True |
| `Conditions.ResizingStatusIff` | internal/periodic/conditions.go:102-112 | the aggregate is True exactly when some input is, Unknown exactly when all are |
| `Conditions.ReasonIff` | internal/periodic/conditions.go:119-124 | for both aggregates the reason is the one all inputs share, or the generic one if they differ |
| `Conditions.TextExactly` | internal/periodic/conditions.go:94-117 | for both aggregates the text is the fitting header and the messages in sorted order, one per line |
| `Conditions.AggregationIgnoresOrder` | internal/periodic/conditions.go:28-132 | both aggregated conditions depend only on the multiset of inputs, text included |
| `Conditions.ResizingAggregator.AddCondition` | internal/periodic/conditions.go:81-83 | appends the condition |
| `Conditions.ResizingAggregator.GetAggregatedCondition` | internal/periodic/conditions.go:88-132 | the loop computes the join, the common reason and the sorted text |
| `Conditions.RecommendationsAggregator.AddCondition` | internal/periodic/conditions.go:22-26 | appends only failing conditions |
| `Conditions.RecommendationsAggregator.GetAggregatedCondition` | internal/periodic/conditions.go:30-73 | True without failures, otherwise False with the common reason and the sorted text |
| `Conditions.PublishedExactly` | internal/periodic/periodic.go:848-854 | publishing keeps at most one condition per kind, and the list then holds exactly the new one, unless its text is empty, and the old ones of other kinds |
| `Conditions.PublishedResizingIff` | internal/periodic/periodic.go:841-856 | after publishing, Resizing is present exactly when some claim contributed a resizing condition, and then both aggregated conditions are in the list |
| `Recommendations.SetVolumeRecommendation` | internal/periodic/periodic.go:579-589 | the loop replaces the first entry of that name or appends |
| `Recommendations.SetRecLookup` | internal/periodic/periodic.go:564-589 | setting an entry changes the answer for its name only |
| `Recommendations.SortKeeps` | internal/periodic/periodic.go:858-861 | sorting keeps entries, answers and distinctness |
| `Visiting.VisitIsLocal` | internal/periodic/periodic.go:376-508 | the outcome for a claim does not depend on the other claims of the object, and it is written at most once |
| `Visiting.VisitReadsOwn` | internal/periodic/periodic.go:376-508 | a visit reads no claims but its own uncontested ones |
| `Visiting.FetchOrderIrrelevant` | internal/periodic/periodic.go:376-512 | another fetch order gives the same claims, writes, published list and published conditions |
| `Tick.FirstMatchDecides` | internal/utils/volume_policy.go:17-29 | the first rule that matches or is malformed decides; without one there is no policy |
| `Tick.EffectRecords` | internal/periodic/periodic.go:788-833 | a patch records the new request as target; growth stamps the entry and the annotation, reduction does neither |
| `Tick.EffectAccounts` | internal/periodic/periodic.go:376-448 | a visited claim is recorded, or fails with a condition, or has no policy |
| `Tick.PublishedListIntegrity` | internal/periodic/periodic.go:360-374 | published entries are distinct, sorted and name fetched claims with a policy; skipped claims keep their entry |
| `Tick.AvailableIff` | internal/periodic/periodic.go:510-512 | RecommendationAvailable is True exactly when no visited claim failed |
| `Tick.OwnersCount` | internal/periodic/periodic.go:334-339 | a claim fetched by two objects has more than one owner in the reverse map |
| `Tick.AfterTick` | internal/periodic/periodic.go:273-275 | a tick does to an object and its claims what reconciling it alone would do |
| `Tick.TickOrderIrrelevant` | internal/periodic/periodic.go:273-275 | every iteration order ends in the same cluster |
| `Tick.OneWriterPerTick` | internal/periodic/periodic.go:376-390 | each claim is patched at most once per tick, and only by its owner |
| `Ownership.ClearedStatus` | internal/periodic/periodic.go:298-332 | a failed fetch empties the list, reports the failure, and has a Resizing condition, Unknown with the failure as reason, exactly when there was one |
| `Ownership.TickIsDeterminate` | internal/periodic/periodic.go:271-275 | a whole tick, fetch phase included, has one outcome and at most one write per claim |
| `Ownership.ListsAfterTick` | internal/periodic/periodic.go:360-390 | which claims an object lists after a tick, for saved and lost status patches |
| `Ownership.TickKeepsSpecs` | internal/periodic/periodic.go:841-868 | a tick changes only status, and only of this autoscaler's objects |
| `Ownership.TickKeepsOwnersIff` | internal/periodic/periodic.go:376-390 | a tick keeps ownership unique exactly when no handover is lost |
| `Ownership.LostHandoverExample` | internal/periodic/periodic.go:327-329 | a legal tick from a cluster with unique owners after which two objects list one claim |
| `Ownership.OwnersUniqueForever` | internal/utils/utils.go:91-96 | once ownership is unique, every run of ticks that lose no handover and of edits keeps it so |
| `Ownership.OwnerIsDeterminate` | internal/utils/utils.go:85-103 | the owner lookup finds at most one object and ignores the index order |
| `Periodic.Runner.SetStatus` | internal/periodic/periodic.go:841-868 | publishes both conditions and the sorted list, unless the patch fails |
| `Periodic.Runner.FetchPVCsForPVCAs` | internal/periodic/periodic.go:284-343 | the forward map holds the fetched objects, the reverse map their owners, and failed objects are cleared |
| `Periodic.Runner.ReconcileClaim` | internal/periodic/periodic.go:376-507 | the new claim, entry list, conditions and write count are those of the effect function |
| `Periodic.Runner.Act` | internal/periodic/periodic.go:788-833 | the verdict's patch, entry and condition |
| `Periodic.Runner.ReconcilePVCA` | internal/periodic/periodic.go:347-513 | the new state is the specified one for this object |
| `Periodic.Runner.ReconcileAll` | internal/periodic/periodic.go:250-278 | an arbitrary iteration order yields the specified tick; failed listing or metrics change nothing |
| `Outcomes.WrittenIff` | internal/periodic/periodic.go:376-508 | a claim is patched exactly when it is handled, a smaller or larger request is called for and the patch is applied, to the half step or the policy's step; it is recorded exactly when it is judged |
| `Outcomes.EntryExactly` | internal/periodic/periodic.go:518-560 | size, figures and target of a recorded entry |
| `Outcomes.FailureExactly` | internal/periodic/periodic.go:380-448 | which reason a failing claim gets: contested, unreadable, bad pattern or ineligible, unusable report |
| `Outcomes.ResizingExactly` | internal/periodic/periodic.go:450-507 | which status and reason is said about the resizing of a claim, and when nothing is |
| `Outcomes.StatusAfterTick` | internal/periodic/periodic.go:510-512 | after a tick RecommendationAvailable is True exactly when no fetched claim fails, Resizing is there exactly when something is said, True exactly when some claim is, Unknown exactly when none is more |
| `Outcomes.ClearedAfterTick` | internal/periodic/periodic.go:298-332 | after a failed fetch an object lists nothing and has exactly the failure and, if it had one, an Unknown Resizing condition |
| `Outcomes.OnePerKindForever` | internal/periodic/periodic.go:841-868 | in every run each object has at most one condition per kind |
| `FetchOrder.OwnersAreFetchers` | internal/periodic/periodic.go:334-339 | the reverse map holds for each claim exactly the objects that fetch it, in list order |
| `FetchOrder.ContestedIff` | internal/periodic/periodic.go:334-380 | a claim has more than one owner in the reverse map exactly when two listed objects fetch it |
| `FetchOrder.TickIgnoresOrders` | internal/periodic/periodic.go:250-278 | other orders of listing, fetching and visiting, and other wording, change nothing but conditions; with the same listing and wording not even those |
| `Refinement.TickIsRun` | internal/periodic/periodic.go:450-507 | what a tick does to a claim is a look and a landing in the run model |
| `Refinement.TickKeepsSingleFlight` | internal/periodic/periodic.go:250-278 | a whole tick keeps at most one expansion per claim, raises only idle claims, and pays for each write from the claim's budget |
| `Refinement.ClusterSingleFlight` | internal/periodic/periodic.go:223-246 | single flight for all claims through every run of ticks, driver actions and edits, status patches failing or not |
| `Refinement.ClusterWritesBounded` | internal/periodic/periodic.go:223-246 | an explicit bound on the patches to each claim in every cluster run |
| `Refinement.ClusterOneObservation` | internal/periodic/periodic.go:547-557 | in every cluster run, after a scale-up from some size and while the request stays beyond it, a tick grows the claim again only on a report of more than that size |
| `Interleaving.SingleFlightEverywhere` | internal/periodic/periodic.go:750-820 | single flight for all claims, the driver acting between any read and its patch |
| `Interleaving.WritesBoundedEverywhere` | internal/periodic/periodic.go:450-507 | the write bound for every claim of every interleaved run |
| `Interleaving.RunIsInterleaving` | internal/periodic/periodic.go:223-278 | every cluster run of whole ticks is an interleaved run |
| `ClusterCooldown.FetchedMeansOwnDoing` | internal/periodic/periodic.go:360-390 | if an object fetches a claim, its own effect alone decides the new size and the new entry |
| `ClusterCooldown.GrewIff` | internal/periodic/periodic.go:376-390 | a tick raises a request exactly when the effect of one of its objects does |
| `ClusterCooldown.TickStamps` | internal/periodic/periodic.go:822-823 | a tick grows a claim only out of cooldown, stores the new stamp if the status patch succeeds, and otherwise keeps the old one |
| `ClusterCooldown.DroppedIff` | internal/periodic/periodic.go:360-374 | a listed claim disappears from the list exactly when the status patch succeeds and the claim is not fetched or has no policy |
| `ClusterCooldown.StampKeptIff` | internal/periodic/periodic.go:822-823 | after a tick the entry holds the time of the last scale-up exactly when the claim is not dropped and no growth goes unsaved |
| `ClusterCooldown.GrowthOfListed` | internal/periodic/periodic.go:360-390 | growth of a listed claim is the doing of the object that lists it, or that object drops the claim, or it is a takeover past its failing status patch |
| `ClusterCooldown.TakeoverLosesHandover` | internal/periodic/periodic.go:376-390 | a takeover whose own status patch succeeds is a lost handover |
| `ClusterCooldown.ClusterCooldownHolds` | internal/periodic/periodic.go:913-935 | in every cluster run, after a scale-up whose stamp was stored, and while no change drops the claim, every later scale-up that is not a takeover is at least the cooldown away, whichever object does it |
| `ClusterCooldown.OrderlyCooldownHolds` | internal/periodic/periodic.go:913-935 | the same for every later scale-up whose stamp is stored in a tick that loses no handover |
| `ClusterCooldown.TakeoverSkipsCooldown` | internal/periodic/periodic.go:360-390 | a legal tick in which a new owner scales a claim up one time unit after the old owner's stamp, under a cooldown of 600 |
| `PvcFetcher.GetPVCsFromPods` | internal/target/pvcfetcher/pvcfetcher.go:123-155 | exactly the mounted claims, each once, or a failure exactly when one cannot be read |
| `PvcFetcher.FetchTarget` | internal/target/pvcfetcher/pvcfetcher.go:81-121 | fetched claims are distinct, readable and those mounted; nothing matched exactly when no pod mounts a claim, failed exactly when pods or a mounted claim cannot be read |
| `OfflineResize.GateRoundTrip` | internal/utils/scheduling_gates.go:13-37 | adding is idempotent and removing undoes it, leaving foreign gates alone |
| `OfflineResize.PathIsDeterminate` | internal/controller/offlineresize/reconciler.go:166-176 | with unique owners the reconciler's branch does not depend on index order |
| `OfflineResize.EvictIff` | internal/controller/offlineresize/reconciler.go:158-191 | pods are evicted exactly for a stuck claim whose error asks for a detach and whose owner, by its policy and target, opts in |
| `OfflineResize.StuckGivenUpIff` | internal/controller/offlineresize/reconciler.go:166-189 | a stuck claim is given up exactly when the lookup works and it is not opted in or needs no detach |
| `OfflineResize.EvictAllAt` | internal/controller/offlineresize/reconciler.go:198-249 | evictions only mark running, non-terminating targets; without a hard failure each is marked exactly when accepted, and a blocked one is reported |
| `OfflineResize.EvictedIff` | internal/controller/offlineresize/reconciler.go:198-249 | a pod is marked exactly when it is running and its eviction is accepted before any hard failure |
| `OfflineResize.UncontrolledSkippedIff` | internal/controller/offlineresize/reconciler.go:194-249 | pods without a workload controller are left alone exactly when no eviction of one is accepted |
| `OfflineResize.UncontrolledEvicted` | internal/controller/offlineresize/reconciler.go:194-249 | reconciling a stuck claim evicts a pod without a controller that mounts it |
| `OfflineResize.UngateAllAt` | internal/controller/offlineresize/reconciler.go:267-293 | only targets lose their gate, and without a failure all of them do |
| `OfflineResize.OutcomeExactly` | internal/controller/offlineresize/reconciler.go:142-249 | a call is an error exactly on a failed read, lookup, list, patch or eviction, blocked ones included; it is repeated later exactly after an untroubled eviction call |
| `OfflineResize.Reconciler.PodsUsingPVC` | internal/controller/offlineresize/reconciler.go:297-315 | exactly the listed pods that mount the claim |
| `OfflineResize.Reconciler.EvictPods` | internal/controller/offlineresize/reconciler.go:198-249 | blocked evictions are skipped and reported, other failures stop the loop |
| `OfflineResize.Reconciler.RemoveSchedulingGates` | internal/controller/offlineresize/reconciler.go:267-293 | gates are removed up to the first failure |
| `OfflineResize.Reconciler.Reconcile` | internal/controller/offlineresize/reconciler.go:142-192 | pods and requeue result of each branch |
| `OfflineResize.Handle` | internal/webhook/pod/mutator.go:59-122 | the pod is gated exactly when one of its claims demands it |
| `OfflineResize.WebhookAgreesWithReconciler` | internal/webhook/pod/mutator.go:82-122 | a pod is gated exactly when reconciling one of its claims would evict |
| `OfflineResize.PvcaUpdatePassesIff` | internal/controller/offlineresize/predicate.go:40-75 | updates pass exactly when the recommended names or the policies differ, regardless of order |
| `OfflineResize.MapPVCAToPVCs` | internal/controller/offlineresize/mapper.go:20-34 | the request for each recommendation, in order and in the object's namespace |
| `OfflineResize.MapPodToPVCs` | internal/controller/offlineresize/mapper.go:37-55 | a request for exactly the claims the pod mounts |
| `OfflineRuns.ClaimQueuedIff` | internal/controller/offlineresize/predicate.go:24-36 | updates, deletions and restarts queue a claim exactly when it was resized by the autoscaler and is stuck or waits for a mount, or when a gated pod waits for it at a restart |
| `OfflineRuns.TickQueues` | internal/controller/offlineresize/predicate.go:24-36 | a relevant claim that a tick has changed is queued |
| `OfflineRuns.PvcaChangeQueues` | internal/controller/offlineresize/predicate.go:40-62 | a change of policies or listed names queues every claim the object listed or lists |
| `OfflineRuns.DetachEvicts` | internal/controller/offlineresize/reconciler.go:142-191 | reconciling a claim that needs a detach evicts its running pods and keeps it queued |
| `OfflineRuns.StuckClaimIsActedUpon` | internal/controller/offlineresize/reconciler.go:113-191 | from the update of a claim that gets stuck, also across a restart, to the eviction of its pods |
| `OfflineRuns.TrackedStepIff` | internal/controller/offlineresize/reconciler.go:113-191 | an event keeps all claims of gated pods queued exactly when it does not abandon one |
| `OfflineRuns.NoStrandedGate` | internal/controller/offlineresize/reconciler.go:129-137 | through runs without abandonment, restarts included, each claim of each gated pod is queued |
| `OfflineRuns.AbandonsIff` | internal/controller/offlineresize/reconciler.go:142-191 | a claim with gated pods is abandoned exactly when it is gone, or stuck without an owner that opts in or an error that asks for a detach |
| `OfflineRuns.JustifiedGatesTracked` | internal/controller/offlineresize/reconciler.go:129-137 | over every run of orderly ticks and edits, while every claim awaited by a gated pod exists and, if stuck, is opted in and needs a detach, owners stay unique and it is queued |
| `OfflineRuns.UngatesOrRetries` | internal/controller/offlineresize/reconciler.go:154-164 | reconciling a claim that is not stuck frees its pods or keeps it queued |
| `OfflineRuns.AbandonedPodStaysGated` | internal/controller/offlineresize/reconciler.go:178-189 | a stuck claim that stops being managed, opted in or in need of a detach leaves its pod gated with nothing queued until a restart |
| `OfflineRuns.GateRemovedIff` | internal/controller/offlineresize/reconciler.go:154-164 | a gate is removed exactly when the pod uses the reconciled claim and that claim is not stuck |
| `OfflineRuns.GateSafety` | internal/controller/offlineresize/reconciler.go:154-164 | a gated pod keeps its gate while all of its claims are stuck, over every run |
| `OfflineRuns.HealthySiblingUngates` | internal/controller/offlineresize/mapper.go:44-51 | a healthy second claim costs a pod its gate |
| `OfflineRuns.BoundedEviction` | internal/controller/offlineresize/reconciler.go:198-249 | evictions in a stuck window never exceed the pods active at its start |

## Left out

- 64-bit overflow and float64 rounding: exact arithmetic is used; at exact percentage boundaries the program can be off by one.
- Quantity parsing and printing, path globbing, message wording: external libraries or plain text; they are parameters. The message about a contested claim may depend on the list of its owners.
- Informer caches: reads are assumed fresh.
- Stored times are kept to the second by the API; here a stamp is read back as it was written.
- Events, logging, counters and gauges: they do not influence decisions.
- Resolving a target to its pods through selectors: the pods are an input of `PvcFetcher`, and the fetch result an input of the tick.
- Edits of requests by users and drivers that settle at another size than requested.
- Interleaving inside one reconcile call of the offline-resize controller, which runs five workers: a call is a single step.
- `ClaimRuns.CooldownHolds`: for runs that lose no stamp; `ClaimRuns.StampKeptIff` says exactly which events do, `ClaimRuns.LostStampLosesCooldown` that both kinds matter.
- `ClusterCooldown.ClusterCooldownHolds`: for a first stamp that is stored, a claim that is not dropped, and a later scale-up that is not a takeover; `ClusterCooldown.StampKeptIff`, `ClusterCooldown.DroppedIff` and `ClusterCooldown.GrowthOfListed` say exactly when these fail.
- `OfflineRuns.JustifiedGatesTracked`: a tick is one step there; between two status patches of the same tick, when the new owner is patched before the old one, both may list a claim.
- Admission validation of autoscaler objects: only what it guarantees about policies is used.
- Setup, command line, heartbeat, metrics clients and generated code.
