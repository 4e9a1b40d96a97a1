/** Runs of one claim, at the granularity of API calls: the runner reads and judges (Look), its
    patch reaches the API server later (Land), and in between and around that the storage
    driver completes expansions, reports conditions, and time passes. */
module ClaimRuns {
  import opened Api
  import opened Sizing
  import opened Recovery
  import opened ClaimLogic

  /** A patch under way. A scale-up is a plain merge patch; a reduction carries the version it
      was computed from. */
  datatype Pending =
    | Nothing
    | Growing(from: nat, target: nat, rec: Rec)
    | Reducing(seen: nat, target: nat, rec: Rec)

  datatype Sys = Sys(claim: Claim, version: nat, rec: Rec, now: int, pending: Pending)

  datatype Event =
    | Look(policy: Policy, info: Option<VolumeInfo>, recovery: bool, saved: bool)
    | Land(accepted: bool, saved: bool)
    | Complete
    | Report(conditions: seq<ClaimCondition>, infeasible: bool)
    | Wait(ticks: nat)
    | Forget

  function Kept(saved: bool, rec: Rec, previous: Rec): Rec { if saved then rec else previous }

  /** `saved` says whether the status patch that stores the entry succeeds. Forget is a tick that
      drops the entry: the claims of the autoscaler object cannot be fetched, or the claim has
      no policy. The first completion of a claim is its binding. Events that make no sense in a
      state leave it as it is. */
  function Step(s: Sys, e: Event): Sys {
    match e
    case Look(p, info, recovery, saved) =>
      if s.pending != Nothing then s
      else
        (match Judge(recovery, p, s.claim, s.rec, info, s.now)
         case Rejected(_) => s
         case Accepted(Hold(rec, _)) => s.(rec := Kept(saved, rec, s.rec))
         case Accepted(Reduce(rec, t)) => s.(pending := Reducing(s.version, t, rec))
         case Accepted(Grow(rec, t, _)) => s.(pending := Growing(s.claim.spec, t, rec)))
    case Land(accepted, saved) =>
      (match s.pending
       case Nothing => s
       case Growing(from, t, rec) =>
         if accepted then
           Sys(Grown(s.claim, from, t), s.version + 1, Kept(saved, GrownRec(rec, t, s.now), s.rec), s.now, Nothing)
         else s.(rec := Kept(saved, rec, s.rec), pending := Nothing)
       case Reducing(seen, t, rec) =>
         if accepted && seen == s.version then
           Sys(Shrunk(s.claim, t), s.version + 1, Kept(saved, ShrunkRec(rec, t), s.rec), s.now, Nothing)
         else s.(rec := Kept(saved, rec, s.rec), pending := Nothing))
    case Complete =>
      s.(claim := s.claim.(status := s.claim.spec, bound := s.claim.bound || s.claim.status == 0),
         version := s.version + 1)
    case Report(cs, infeasible) =>
      s.(claim := s.claim.(conditions := cs, infeasible := infeasible), version := s.version + 1)
    case Wait(ticks) => s.(now := s.now + ticks)
    case Forget => if s.pending != Nothing then s else s.(rec := FreshRec(s.rec.name))
  }

  function Run(s: Sys, es: seq<Event>): Sys
    decreases |es|
  {
    if es == [] then s else Run(Step(s, es[0]), es[1..])
  }

  /** Every policy in force during the run is admissible and allows at most `max`. */
  ghost predicate Within(es: seq<Event>, max: int) {
    forall i :: 0 <= i < |es| && es[i].Look? ==> ValidPolicy(es[i].policy) && es[i].policy.maxCapacity <= max
  }

  // ----- single flight -----

  predicate Idle(c: Claim) { c.spec == c.status && c.prev != Prev(c.status) }

  predicate InFlight(c: Claim, max: int) { c.prev == Prev(c.status) && c.status + GI <= c.spec <= max }

  /** A new claim that has no volume yet. */
  predicate Unbound(c: Claim) { c.status == 0 && !c.prev.Prev? }

  /** At most one expansion is outstanding. */
  predicate OneExpansion(c: Claim, max: int) { Idle(c) || Unbound(c) || InFlight(c, max) }

  predicate Inv(s: Sys, max: int) {
    && OneExpansion(s.claim, max)
    && match s.pending
       case Nothing => true
       case Growing(from, t, _) => Idle(s.claim) && from == s.claim.spec && 0 < from && from + GI <= t <= max
       case Reducing(seen, t, _) =>
         && seen <= s.version
         && (seen == s.version ==>
               InFlight(s.claim, max) && 0 < s.claim.status && Reduced(s.claim.status, s.claim.spec) == Some(t))
  }

  /** One event keeps the claim unbound, idle or in flight. The request rises only on an idle claim and
      then the claim is in flight; it falls only while in flight, stays in flight, and never
      below the least request. */
  lemma SingleFlightStep(s: Sys, e: Event, max: int)
    requires Inv(s, max) && Within([e], max)
    ensures Inv(Step(s, e), max)
    ensures
      var c, c' := s.claim, Step(s, e).claim;
      && (c'.spec > c.spec ==> Idle(c) && InFlight(c', max) && c'.prev == Prev(c.spec)
                               && c'.status == c.status && 0 < c.status)
      && (c'.spec < c.spec ==> InFlight(c, max) && InFlight(c', max) && c'.status == c.status && 0 < c.status
                               && Reduced(c.status, c.spec) == Some(c'.spec))
      && (c'.spec == c.spec ==> c'.prev == c.prev && (c'.status == c.status || c'.status == c.spec))
      && c.status <= c'.status
  {
    if e.Look? {
      assert [e][0] == e;
      LookStep(s, e, max);
    } else if e.Land? && s.pending.Reducing? {
      if e.accepted && s.pending.seen == s.version {
        ReducedExactly(s.claim.status, s.claim.spec);
      }
    }
  }

  lemma LookStep(s: Sys, e: Event, max: int)
    requires Inv(s, max) && e.Look? && ValidPolicy(e.policy) && e.policy.maxCapacity <= max
    ensures Inv(Step(s, e), max) && Step(s, e).claim == s.claim
  {
    var j := Judge(e.recovery, e.policy, s.claim, s.rec, e.info, s.now);
    if s.pending == Nothing && j.Accepted? {
      if j.verdict.Grow? {
        GrowImplies(e.recovery, e.policy, s.claim, s.rec, e.info, s.now);
      } else if j.verdict.Reduce? {
        ReduceImplies(e.recovery, e.policy, s.claim, s.rec, e.info, s.now);
      }
    }
  }

  lemma WithinParts(es: seq<Event>, max: int)
    requires Within(es, max) && es != []
    ensures Within([es[0]], max) && Within(es[1..], max)
  {
  }

  /** In every state of every run the claim is unbound, idle or has exactly one expansion
      outstanding; on a bound claim the annotation test tells which, and the request is never
      below the capacity, not even when the driver completes between the runner's read and its
      patch. */
  lemma {:induction false} SingleFlight(s: Sys, es: seq<Event>, max: int)
    requires Inv(s, max) && Within(es, max)
    ensures Inv(Run(s, es), max)
    ensures
      var c := Run(s, es).claim;
      (Unbound(c) || (c.prev == Prev(c.status) <==> c.spec != c.status)) && c.status <= c.spec
    decreases |es|
  {
    if es != [] {
      WithinParts(es, max);
      SingleFlightStep(s, es[0], max);
      SingleFlight(Step(s, es[0]), es[1..], max);
    }
  }

  /** The version check on reductions is what protects the capacity: had a reduction computed
      at capacity 1Gi been applied after the driver completed the 5Gi expansion, the request
      would be 3Gi for a 5Gi volume. The step itself turns that patch into a no-op. */
  lemma LockNeeded(cs: seq<ClaimCondition>)
    ensures
      var c := Claim(5 * GI, GI, Prev(GI), cs, true, Class(true), true, true);
      var s := Sys(c, 7, FreshRec("data"), 0, Reducing(7, 3 * GI, FreshRec("data")));
      var done := Step(s, Complete);
      && Inv(s, 10 * GI)
      && Step(done, Land(true, true)).claim == done.claim
      && Shrunk(done.claim, 3 * GI).spec < done.claim.status
  {
  }

  // ----- bounded writes -----

  predicate Wrote(s: Sys, e: Event) { Step(s, e).claim.spec != s.claim.spec }

  /** Number of times the request is changed during a run. */
  ghost function Writes(s: Sys, es: seq<Event>): nat
    decreases |es|
  {
    if es == [] then 0
    else (if Wrote(s, es[0]) then 1 else 0) + Writes(Step(s, es[0]), es[1..])
  }

  /** Whole gibibytes left below the maximum. */
  function Room(size: int, max: int): nat { if max - size < GI then 0 else (max - size) / GI }

  /** Writes still possible: per gibibyte of room one scale-up and its reductions. */
  ghost function Budget(c: Claim, max: int, width: int): int {
    var each := 1 + CeilLog2(width);
    if InFlight(c, max) then each * (Room(c.status, max) - 1) + Reductions(c.status, c.spec)
    else each * Room(c.status, max)
  }

  lemma BudgetStep(s: Sys, e: Event, max: int, width: int)
    requires Inv(s, max) && Within([e], max) && Gap(s.claim.status, max) <= width
    ensures Gap(Step(s, e).claim.status, max) <= width
    ensures Budget(Step(s, e).claim, max, width) + (if Wrote(s, e) then 1 else 0) <= Budget(s.claim, max, width)
  {
    SingleFlightStep(s, e, max);
    var c, c' := s.claim, Step(s, e).claim;
    var each := 1 + CeilLog2(width);
    GapMonotone(c.status, c'.status, max);
    if c'.spec > c.spec {
      ReductionsWithin(c'.status, c'.spec, max, width);
      assert each * Room(c.status, max) == each * (Room(c.status, max) - 1) + each;
    } else if c'.spec == c.spec {
      DriverBudget(c, c', max, width);
    }
  }

  /** The driver, by completing an expansion or binding a claim, never adds to the budget. */
  lemma DriverBudget(c: Claim, c': Claim, max: int, width: int)
    requires OneExpansion(c, max) && c'.spec == c.spec && c'.prev == c.prev
    requires c'.status == c.status || c'.status == c.spec
    ensures OneExpansion(c', max)
    ensures Gap(c.status, max) <= width ==> Gap(c'.status, max) <= width
    ensures Budget(c', max, width) <= Budget(c, max, width)
  {
    if c'.status != c.status {
      GapMonotone(c.status, c'.status, max);
      var each, room := 1 + CeilLog2(width), if InFlight(c, max) then Room(c.status, max) - 1 else Room(c.status, max);
      assert Room(c'.status, max) <= room;
      MulLe(Room(c'.status, max), room, each);
    }
  }

  lemma GapMonotone(a: int, b: int, max: int)
    requires a <= b
    ensures Gap(b, max) <= Gap(a, max)
  {
  }

  lemma ReductionsWithin(status: nat, spec: nat, max: int, width: int)
    requires 0 < status && spec <= max && Gap(status, max) <= width
    ensures Reductions(status, spec) <= CeilLog2(width)
  {
    RecoveryConverges(status, spec);
    assert Gap(status, spec) <= Gap(status, max);
    CeilLog2Monotone(Gap(status, spec), width);
  }

  lemma BudgetNonNegative(c: Claim, max: int, width: int)
    requires OneExpansion(c, max)
    ensures Budget(c, max, width) >= 0
  {
  }

  lemma {:induction false} WritesWithinBudget(s: Sys, es: seq<Event>, max: int, width: int)
    requires Inv(s, max) && Within(es, max) && Gap(s.claim.status, max) <= width
    ensures Writes(s, es) <= Budget(s.claim, max, width)
    decreases |es|
  {
    if es == [] {
      BudgetNonNegative(s.claim, max, width);
    } else {
      WithinParts(es, max);
      BudgetStep(s, es[0], max, width);
      SingleFlightStep(s, es[0], max);
      WritesWithinBudget(Step(s, es[0]), es[1..], max, width);
    }
  }

  /** No endless oscillation: from an idle or unbound claim, every interleaving of scale-ups, reductions,
      completions and reports, of any length and under policies that may change from tick to
      tick, changes the request at most r * (1 + ceil(log2(g))) times, where r is the room
      below the maximum in whole gibibytes and g the gap to it. */
  lemma {:induction false} NoEndlessOscillation(s: Sys, es: seq<Event>, max: int)
    requires (Idle(s.claim) || Unbound(s.claim)) && s.pending == Nothing && Within(es, max)
    ensures Writes(s, es) <= (1 + CeilLog2(Gap(s.claim.status, max))) * Room(s.claim.status, max)
  {
    WritesWithinBudget(s, es, max, Gap(s.claim.status, max));
  }

  // ----- one observation, one scale-up -----

  predicate StartsGrowth(s: Sys, e: Event) { s.pending == Nothing && Step(s, e).pending.Growing? }

  /** No judgement of the run that starts a scale-up rests on a report of at most `size`. */
  ghost predicate NoGrowthOn(s: Sys, es: seq<Event>, size: int)
    decreases |es|
  {
    es == [] ||
    (&& (StartsGrowth(s, es[0]) ==> es[0].Look? && es[0].info.Some? && es[0].info.value.capBytes > size)
     && NoGrowthOn(Step(s, es[0]), es[1..], size))
  }

  /** The request stays out of reach of reports taken at `size`. */
  ghost predicate StaysBeyond(s: Sys, es: seq<Event>, size: int, max: int)
    decreases |es|
  {
    es == [] || (Beyond(size, Step(s, es[0]).claim.spec, max) && StaysBeyond(Step(s, es[0]), es[1..], size, max))
  }

  ghost predicate NeverReduced(s: Sys, es: seq<Event>)
    decreases |es|
  {
    es == [] || (Step(s, es[0]).claim.spec >= s.claim.spec && NeverReduced(Step(s, es[0]), es[1..]))
  }

  /** The maximum capacity stays the same during the run. */
  ghost predicate FixedMax(es: seq<Event>, max: int) {
    forall i :: 0 <= i < |es| && es[i].Look? ==> ValidPolicy(es[i].policy) && es[i].policy.maxCapacity == max
  }

  /** A claim of size x is out of reach of reports taken at `size`. */
  predicate Beyond(size: int, x: int, max: int) { size < x && (Stale(x, size) || max - x < GI) }

  predicate Tuned(s: Sys, max: int) {
    Inv(s, max) && (s.pending.Growing? ==> Beyond(s.pending.from, s.pending.target, max))
  }

  /** Request and capacity are out of reach of reports taken at `size`, or an expansion from there
      is under way. */
  predicate GuardedClaim(c: Claim, size: int, max: int) {
    && Beyond(size, c.spec, max)
    && (Beyond(size, c.status, max) || (c.status == size && c.prev == Prev(size)))
  }

  predicate Guarded(s: Sys, size: int, max: int) {
    && Tuned(s, max) && GuardedClaim(s.claim, size, max)
    && (s.pending.Growing? ==> Beyond(size, s.pending.target, max))
  }

  lemma TunedStep(s: Sys, e: Event, max: int)
    requires Tuned(s, max) && FixedMax([e], max)
    ensures Tuned(Step(s, e), max)
  {
    assert e == [e][0];
    assert Within([e], max);
    SingleFlightStep(s, e, max);
    if StartsGrowth(s, e) {
      GrowImplies(e.recovery, e.policy, s.claim, s.rec, e.info, s.now);
    }
  }

  lemma BeyondMonotone(size: int, a: int, b: int, max: int)
    requires Beyond(size, a, max) && a <= b
    ensures Beyond(size, b, max)
  {
  }

  lemma LowerReportStale(size: int, reported: int, status: int)
    requires size < status && Stale(status, size)
    ensures reported <= size ==> Stale(status, reported)
  {
  }

  lemma GuardedStep(s: Sys, e: Event, size: nat, max: int)
    requires Guarded(s, size, max) && FixedMax([e], max)
    requires Beyond(size, Step(s, e).claim.spec, max)
    ensures Guarded(Step(s, e), size, max)
    ensures StartsGrowth(s, e) ==> e.Look? && e.info.Some? && e.info.value.capBytes > size
  {
    assert e == [e][0];
    assert Within([e], max);
    TunedStep(s, e, max);
    SingleFlightStep(s, e, max);
    if StartsGrowth(s, e) {
      GrowImplies(e.recovery, e.policy, s.claim, s.rec, e.info, s.now);
      assert Idle(s.claim) && Stale(s.claim.status, size);
      LowerReportStale(size, e.info.value.capBytes, s.claim.status);
      BeyondMonotone(size, s.claim.spec, Step(s, e).pending.target, max);
    }
  }

  /** A landing scale-up guards the claim against reports of the size it started from. */
  lemma GuardedByGrowth(s: Sys, e: Event, max: int)
    requires Tuned(s, max) && GrowthLands(s, e)
    ensures 0 <= s.claim.spec && Guarded(Step(s, e), s.claim.spec, max)
  {
  }

  lemma {:induction false} GuardedRun(s: Sys, es: seq<Event>, size: nat, max: int)
    requires Guarded(s, size, max) && FixedMax(es, max) && StaysBeyond(s, es, size, max)
    ensures NoGrowthOn(s, es, size)
    decreases |es|
  {
    if es != [] {
      assert FixedMax([es[0]], max) && FixedMax(es[1..], max);
      GuardedStep(s, es[0], size, max);
      GuardedRun(Step(s, es[0]), es[1..], size, max);
    }
  }

  lemma {:induction false} UnreducedStaysBeyond(s: Sys, es: seq<Event>, size: int, max: int)
    requires Beyond(size, s.claim.spec, max) && NeverReduced(s, es)
    ensures StaysBeyond(s, es, size, max)
    decreases |es|
  {
    if es != [] {
      BeyondMonotone(size, s.claim.spec, Step(s, es[0]).claim.spec, max);
      UnreducedStaysBeyond(Step(s, es[0]), es[1..], size, max);
    }
  }

  lemma {:induction false} TunedRun(s: Sys, es: seq<Event>, max: int)
    requires Tuned(s, max) && FixedMax(es, max)
    ensures Tuned(Run(s, es), max)
    decreases |es|
  {
    if es != [] {
      assert FixedMax([es[0]], max) && FixedMax(es[1..], max);
      TunedStep(s, es[0], max);
      TunedRun(Step(s, es[0]), es[1..], max);
    }
  }

  /** One observation never causes two scale-ups: once a scale-up from some size has landed,
      and as long as the request stays beyond the tolerance of that size, no later judgement
      that rests on a report of that size or less starts another one. Without a reduction the
      request stays there by itself. */
  lemma OneObservationOneGrowth(s: Sys, before: seq<Event>, saved: bool, after: seq<Event>, max: int)
    requires (Idle(s.claim) || Unbound(s.claim)) && s.pending == Nothing
    requires FixedMax(before, max) && FixedMax(after, max)
    ensures
      var a := Run(s, before);
      var b := Step(a, Land(true, saved));
      a.pending.Growing? ==>
        && (StaysBeyond(b, after, a.claim.spec, max) ==> NoGrowthOn(b, after, a.claim.spec))
        && (NeverReduced(b, after) ==> StaysBeyond(b, after, a.claim.spec, max))
  {
    TunedRun(s, before, max);
    var a := Run(s, before);
    var b := Step(a, Land(true, saved));
    if a.pending.Growing? {
      GuardedByGrowth(a, Land(true, saved), max);
      if StaysBeyond(b, after, a.claim.spec, max) { GuardedRun(b, after, a.claim.spec, max); }
      if NeverReduced(b, after) { UnreducedStaysBeyond(b, after, a.claim.spec, max); }
    }
  }

  /** The report shows a share of used bytes or inodes above the threshold. */
  predicate Overfull(p: Policy, i: VolumeInfo) {
    && i.availBytes >= 0 && i.capBytes > 0 && i.availInodes >= 0 && i.capInodes > 0
    && (|| 100 * (i.capBytes - i.availBytes) > p.threshold * i.capBytes
        || 100 * (i.capInodes - i.availInodes) > p.threshold * i.capInodes)
  }

  /** On a ready claim and an overfull report exactly three things keep a look from starting a
      scale-up: a stale report, no headroom, and the cooldown. */
  lemma ReadyGrowsIff(s: Sys, p: Policy, i: VolumeInfo, recovery: bool, saved: bool)
    requires ValidPolicy(p) && p.strategy != Off && Ready(s, p, 0) && Overfull(p, i)
    ensures StartsGrowth(s, Look(p, Some(i), recovery, saved)) <==>
              && !Stale(s.claim.status, i.capBytes)
              && !AtMaxCapacity(s.claim.status, p)
              && !InCooldown(p, s.rec, s.now)
  {
    ThresholdExact(i.availBytes, i.capBytes, p.threshold);
    ThresholdExact(i.availInodes, i.capInodes, p.threshold);
    ScaleUpSound(s.claim.spec, p);
  }

  /** The condition of OneObservationOneGrowth is exact: on a claim that is ready and out of
      cooldown, an overfull report of a smaller size starts a scale-up if and only if the claim
      is not beyond that size. */
  lemma OldReportStartsGrowthIff(s: Sys, p: Policy, i: VolumeInfo, recovery: bool, saved: bool)
    requires ValidPolicy(p) && p.strategy != Off && Ready(s, p, 0) && !InCooldown(p, s.rec, s.now)
    requires Overfull(p, i) && i.capBytes < s.claim.status
    ensures StartsGrowth(s, Look(p, Some(i), recovery, saved)) <==> !Beyond(i.capBytes, s.claim.status, p.maxCapacity)
    ensures i.capBytes + GI <= s.claim.status ==>
              (Beyond(i.capBytes, s.claim.status, p.maxCapacity) <==>
                 24 * s.claim.status > 25 * i.capBytes || AtMaxCapacity(s.claim.status, p))
  {
    ReadyGrowsIff(s, p, i, recovery, saved);
  }

  /** With a reduction in between, the same report does cause a second scale-up: 50Gi is scaled
      to 53Gi, reduced to 52Gi and completed there, and 52Gi is not beyond 50Gi, since 50Gi is
      within 4% of it (OldReportStartsGrowthIff). */
  lemma ReductionReopensReport()
    ensures
      var p := Policy(200 * GI, 80, 5, GI, None, InPlace);
      var look := Look(p, Some(VolumeInfo(GI, 50 * GI, 1, 1)), true, true);
      var c := Claim(50 * GI, 50 * GI, NoAnnotation, [], false, Class(true), true, true);
      var s := Sys(c, 0, FreshRec("data"), 0, Nothing);
      var grown := Step(Step(s, look), Land(true, true));
      var reduced := Step(Step(Step(grown, Report([], true)), look), Land(true, true));
      var settled := Step(Step(reduced, Report([], false)), Complete);
      && ValidPolicy(p) && Idle(s.claim)
      && grown.claim.spec == 53 * GI && reduced.claim.spec == 52 * GI
      && Idle(settled.claim) && !Beyond(50 * GI, settled.claim.status, p.maxCapacity)
      && StartsGrowth(settled, look)
  {
    var p := Policy(200 * GI, 80, 5, GI, None, InPlace);
    var look := Look(p, Some(VolumeInfo(GI, 50 * GI, 1, 1)), true, true);
    var c := Claim(50 * GI, 50 * GI, NoAnnotation, [], false, Class(true), true, true);
    var s := Sys(c, 0, FreshRec("data"), 0, Nothing);
    assert UsedPercent(GI, 50 * GI) == Some(98);
    assert RecommendSize(50 * GI, p) == Target(53 * GI);
    assert Step(s, look).pending.Growing? && Step(s, look).pending.target == 53 * GI;
    var failed := Step(Step(Step(s, look), Land(true, true)), Report([], true));
    assert Reduced(50 * GI, 53 * GI) == Some(52 * GI);
    assert Step(failed, look).pending.Reducing? && Step(failed, look).pending.target == 52 * GI;
    assert RecommendSize(52 * GI, p).Target?;
  }

  // ----- cooldown -----

  predicate GrowthLands(s: Sys, e: Event) { e.Land? && e.accepted && s.pending.Growing? }

  /** Times at which scale-ups landed. */
  ghost function Growths(s: Sys, es: seq<Event>): seq<int>
    decreases |es|
  {
    if es == [] then []
    else
      var rest := Growths(Step(s, es[0]), es[1..]);
      if GrowthLands(s, es[0]) then [s.now] + rest else rest
  }

  /** The event loses the time of the last scale-up: the entry that holds it is dropped, or the
      status patch that should store a new time fails. */
  predicate LosesStamp(s: Sys, e: Event) {
    || (e.Forget? && s.pending == Nothing && s.rec.lastResize.Some?)
    || (GrowthLands(s, e) && !e.saved && s.rec.lastResize != Some(s.now))
  }

  ghost predicate NeverLosesStamp(s: Sys, es: seq<Event>)
    decreases |es|
  {
    es == [] || (!LosesStamp(s, es[0]) && NeverLosesStamp(Step(s, es[0]), es[1..]))
  }

  /** Every policy that resizes has a cooldown of at least d. */
  ghost predicate Cooling(es: seq<Event>, d: int) {
    forall i :: 0 <= i < |es| && es[i].Look? ==>
      es[i].policy.strategy == Off || (es[i].policy.cooldown.Some? && es[i].policy.cooldown.value >= d)
  }

  predicate Cooled(s: Sys, d: int) {
    match s.pending
    case Nothing => true
    case Growing(_, _, rec) =>
      rec.lastResize == s.rec.lastResize && (rec.lastResize.Some? ==> s.now - rec.lastResize.value >= d)
    case Reducing(_, _, rec) => rec.lastResize == s.rec.lastResize
  }

  /** The entry holds the time of the last scale-up after an event if and only if the event does
      not lose it. */
  lemma StampKeptIff(s: Sys, e: Event, d: nat)
    requires Cooled(s, d)
    ensures Step(s, e).rec.lastResize == (if GrowthLands(s, e) then Some(s.now) else s.rec.lastResize)
            <==> !LosesStamp(s, e)
  {
    if e.Look? && s.pending == Nothing {
      JudgeKeepsMemory(e.recovery, e.policy, s.claim, s.rec, e.info, s.now);
    }
  }

  lemma CooledStep(s: Sys, e: Event, d: nat)
    requires Cooled(s, d) && Cooling([e], d)
    ensures Cooled(Step(s, e), d)
    ensures Step(s, e).now >= s.now
  {
    assert e == [e][0];
    if e.Look? && s.pending == Nothing {
      JudgeKeepsMemory(e.recovery, e.policy, s.claim, s.rec, e.info, s.now);
    }
  }

  /** Any two scale-ups of a run are at least the cooldown apart, across every kind of skipped
      tick, failed patch and reduction in between, as long as no stamp is lost. */
  lemma {:induction false} CooldownHolds(s: Sys, es: seq<Event>, d: nat)
    requires Cooled(s, d) && Cooling(es, d) && NeverLosesStamp(s, es)
    ensures s.rec.lastResize.Some? ==> forall t :: t in Growths(s, es) ==> t >= s.rec.lastResize.value + d
    ensures forall i, j :: 0 <= i < j < |Growths(s, es)| ==> Growths(s, es)[j] >= Growths(s, es)[i] + d
    decreases |es|
  {
    if es != [] {
      assert Cooling([es[0]], d) && Cooling(es[1..], d);
      CooledStep(s, es[0], d);
      StampKeptIff(s, es[0], d);
      var s' := Step(s, es[0]);
      CooldownHolds(s', es[1..], d);
      var times, rest := Growths(s, es), Growths(s', es[1..]);
      if times != rest {
        forall i, j | 0 <= i < j < |times| ensures times[j] >= times[i] + d {
          assert times[j] == rest[j - 1] && rest[j - 1] in rest;
          if i > 0 { assert times[i] == rest[i - 1]; }
        }
      }
    }
  }

  /** Both ways of losing a stamp cost the cooldown: the claim is scaled twice at the same instant
      although the policy asks for 600 ticks in between, once because the entry was dropped, once
      because the status patch after the first scale-up failed. */
  lemma LostStampLosesCooldown()
    ensures
      var p := Policy(100 * GI, 80, 10, GI, Some(600), InPlace);
      var c := Claim(GI, GI, NoAnnotation, [], false, Class(true), true, true);
      var s := Sys(c, 0, FreshRec("data"), 0, Nothing);
      var look1 := Look(p, Some(VolumeInfo(0, GI, 1, 1)), true, true);
      var look2 := Look(p, Some(VolumeInfo(0, 2 * GI, 1, 1)), true, true);
      var once := Step(Step(Step(s, look1), Land(true, true)), Complete);
      var unsaved := Step(Step(Step(s, look1), Land(true, false)), Complete);
      && ValidPolicy(p)
      && !StartsGrowth(once, look2)
      && StartsGrowth(Step(once, Forget), look2) && Step(once, Forget).now == s.now
      && StartsGrowth(unsaved, look2) && unsaved.now == s.now
  {
  }

  // ----- quiescence -----

  /** Faithful metrics for a volume holding `used` bytes, with inode figures by size. */
  function Faithful(size: nat, used: nat, inodes: nat -> (nat, nat)): VolumeInfo {
    VolumeInfo(size - used, size, inodes(size).0, inodes(size).1)
  }

  /** Nothing stands in the way of a resize. */
  predicate Ready(s: Sys, p: Policy, used: nat) {
    && s.pending == Nothing
    && Idle(s.claim) && s.claim.prev != BadAnnotation
    && used <= s.claim.status
    && Eligible(p, s.claim)
    && !ShouldRecover(s.claim)
    && !IsTrue(s.claim, Resizing) && !IsTrue(s.claim, FileSystemResizePending) && !IsTrue(s.claim, ModifyingVolume)
  }

  /** Wait out the cooldown, look, let the patch land and the driver complete. */
  function Round(s: Sys, p: Policy, used: nat, inodes: nat -> (nat, nat)): Sys {
    var waited := Step(s, Wait(CooldownLeft(s, p)));
    var looked := Step(waited, Look(p, Some(Faithful(s.claim.status, used, inodes)), true, true));
    Step(Step(looked, Land(true, true)), Complete)
  }

  function CooldownLeft(s: Sys, p: Policy): nat {
    if InCooldown(p, s.rec, s.now) then s.rec.lastResize.value + p.cooldown.value - s.now else 0
  }

  ghost predicate SaneInodes(inodes: nat -> (nat, nat)) {
    forall size: nat :: inodes(size).1 > 0
  }

  /** Both utilizations are at or below the threshold, or there is no room for a step. */
  predicate Satisfied(size: nat, p: Policy, used: nat, inodes: nat -> (nat, nat)) {
    || AtMaxCapacity(size, p)
    || (&& 100 * used <= p.threshold * size
        && 100 * (inodes(size).1 - inodes(size).0) <= p.threshold * inodes(size).1)
  }

  /** A round changes nothing exactly when the claim is satisfied; otherwise the claim grows by
      at least 1Gi, within the maximum, and is ready for the next round. */
  lemma RoundExactly(s: Sys, p: Policy, used: nat, inodes: nat -> (nat, nat))
    requires ValidPolicy(p) && p.strategy != Off && SaneInodes(inodes) && Ready(s, p, used)
    ensures
      var s' := Round(s, p, used, inodes);
      && Ready(s', p, used)
      && (s'.claim.spec == s.claim.spec <==> Satisfied(s.claim.status, p, used, inodes))
      && (s'.claim.spec != s.claim.spec ==> s.claim.spec + GI <= s'.claim.spec <= p.maxCapacity)
  {
    var size := s.claim.status;
    var info := Faithful(size, used, inodes);
    var waited := Step(s, Wait(CooldownLeft(s, p)));
    ThresholdExact(size - used, size, p.threshold);
    assert inodes(size).1 > 0;
    ThresholdExact(inodes(size).0, inodes(size).1, p.threshold);
    ScaleUpSound(size, p);
    assert !InCooldown(p, waited.rec, waited.now);
    assert !Stale(size, size);
    var j := Judge(true, p, s.claim, s.rec, Some(info), waited.now);
    assert j.Accepted?;
    var looked := Step(waited, Look(p, Some(info), true, true));
    if Satisfied(size, p, used, inodes) {
      assert looked.pending == Nothing;
    } else {
      assert j.verdict.Grow?;
      assert looked.pending.Growing?;
    }
  }

  ghost function Rounds(s: Sys, p: Policy, used: nat, inodes: nat -> (nat, nat), n: nat): Sys
    decreases n
  {
    if n == 0 then s else Round(Rounds(s, p, used, inodes, n - 1), p, used, inodes)
  }

  /** The claim got from s to c in n rounds: satisfied, or n steps of 1Gi further. */
  predicate Approached(s: Sys, c: Sys, p: Policy, used: nat, inodes: nat -> (nat, nat), n: nat) {
    && Ready(c, p, used)
    && s.claim.spec <= c.claim.spec && (c.claim.spec == s.claim.spec || c.claim.spec <= p.maxCapacity)
    && (Satisfied(s.claim.spec, p, used, inodes) ==> c.claim.spec == s.claim.spec)
    && (Satisfied(c.claim.spec, p, used, inodes) || s.claim.spec + n * GI <= c.claim.spec <= p.maxCapacity)
  }

  /** What a round leaves and does, in terms of the request alone. */
  predicate Advanced(c: Sys, d: Sys, p: Policy, used: nat, inodes: nat -> (nat, nat)) {
    && Ready(d, p, used)
    && if Satisfied(c.claim.spec, p, used, inodes) then d.claim.spec == c.claim.spec
       else c.claim.spec + GI <= d.claim.spec <= p.maxCapacity
  }

  lemma RoundAdvances(s: Sys, p: Policy, used: nat, inodes: nat -> (nat, nat))
    requires ValidPolicy(p) && p.strategy != Off && SaneInodes(inodes) && Ready(s, p, used)
    ensures Advanced(s, Round(s, p, used, inodes), p, used, inodes)
  {
    RoundExactly(s, p, used, inodes);
  }

  lemma ApproachNext(s: Sys, c: Sys, d: Sys, p: Policy, used: nat, inodes: nat -> (nat, nat), n: nat)
    requires Approached(s, c, p, used, inodes, n) && Advanced(c, d, p, used, inodes)
    ensures Approached(s, d, p, used, inodes, n + 1)
  {
  }

  /** What is left of the room shrinks with every round until the claim is satisfied. */
  lemma {:induction false} RoundsApproach(s: Sys, p: Policy, used: nat, inodes: nat -> (nat, nat), n: nat)
    requires ValidPolicy(p) && p.strategy != Off && SaneInodes(inodes) && Ready(s, p, used)
    ensures Approached(s, Rounds(s, p, used, inodes, n), p, used, inodes, n)
    decreases n
  {
    if n > 0 {
      RoundsApproach(s, p, used, inodes, n - 1);
      var c := Rounds(s, p, used, inodes, n - 1);
      RoundAdvances(c, p, used, inodes);
      ApproachNext(s, c, Round(c, p, used, inodes), p, used, inodes, n - 1);
    }
  }

  /** Quiescent only when satisfied: under faithful metrics and constant usage, after as many
      rounds as there are whole gibibytes of room the claim is satisfied, and it is left alone
      exactly from the first round in which it is. */
  lemma QuiescentWhenSatisfied(s: Sys, p: Policy, used: nat, inodes: nat -> (nat, nat), n: nat)
    requires ValidPolicy(p) && p.strategy != Off && SaneInodes(inodes) && Ready(s, p, used)
    requires n >= Room(s.claim.spec, p.maxCapacity)
    ensures Satisfied(Rounds(s, p, used, inodes, n).claim.spec, p, used, inodes)
    ensures Rounds(s, p, used, inodes, n + 1).claim.spec == Rounds(s, p, used, inodes, n).claim.spec
  {
    RoundsApproach(s, p, used, inodes, n);
    RoundExactly(Rounds(s, p, used, inodes, n), p, used, inodes);
  }
}
