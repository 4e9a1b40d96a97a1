/** The runs of a single claim describe what ticks do to the claims of a whole cluster. */
module Refinement {
  import opened Api
  import opened ClaimLogic
  import opened Recovery
  import opened Recommendations
  import opened Visiting
  import opened Tick
  import opened Ownership
  import Runs = ClaimRuns

  /** The events by which a tick acts on one claim. */
  function Events(w: World, policy: Policy, k: Key): seq<Runs.Event>
    requires w.judgedAt(k) <= w.stampedAt(k)
  {
    [Runs.Look(policy, Get(w.metrics, k), w.recovery, true),
     Runs.Wait(w.stampedAt(k) - w.judgedAt(k)),
     Runs.Land(w.patch(k) == Applied, true)]
  }

  lemma RunThree(s: Runs.Sys, a: Runs.Event, b: Runs.Event, c: Runs.Event)
    ensures Runs.Run(s, [a, b, c]) == Runs.Step(Runs.Step(Runs.Step(s, a), b), c)
  {
    assert [a, b, c][1..] == [b, c] && [b, c][1..] == [c] && [c][1..] == [];
    assert Runs.Run(s, [a, b, c]) == Runs.Run(Runs.Step(s, a), [b, c]);
    assert Runs.Run(Runs.Step(s, a), [b, c]) == Runs.Run(Runs.Step(Runs.Step(s, a), b), [c]);
  }

  /** What a tick does to an uncontested claim is a look followed by the landing of its patch. */
  lemma TickIsRun(w: World, rules: seq<Rule>, holders: seq<Key>, k: Key, c: Claim, entry: Rec, version: nat)
    requires |holders| <= 1 && w.readable(k) && w.judgedAt(k) <= w.stampedAt(k)
    requires GetVolumePolicy(w.glob, k.name, rules).Matched?
    ensures
      var policy := GetVolumePolicy(w.glob, k.name, rules).policy;
      var e := EffectOn(w, rules, holders, k, Some(c), entry);
      var s := Runs.Run(Runs.Sys(c, version, entry, w.judgedAt(k), Runs.Nothing), Events(w, policy, k));
      && s.claim == (if e.claim.Some? then e.claim.value else c)
      && s.rec == (if e.entry.Some? then e.entry.value else entry)
      && s.pending == Runs.Nothing
  {
    var policy := GetVolumePolicy(w.glob, k.name, rules).policy;
    var s := Runs.Sys(c, version, entry, w.judgedAt(k), Runs.Nothing);
    var es := Events(w, policy, k);
    RunThree(s, es[0], es[1], es[2]);
    var j := Judge(w.recovery, policy, c, entry, Get(w.metrics, k), w.judgedAt(k));
    if j.Accepted? {
      VerdictIsRun(w, policy, k, s, j.verdict);
    }
  }

  lemma VerdictIsRun(w: World, policy: Policy, k: Key, s: Runs.Sys, v: Verdict)
    requires w.judgedAt(k) <= w.stampedAt(k) && s.now == w.judgedAt(k) && s.pending == Runs.Nothing
    requires Judge(w.recovery, policy, s.claim, s.rec, Get(w.metrics, k), s.now) == Accepted(v)
    ensures
      var es, e := Events(w, policy, k), Perform(w, k, s.claim, v);
      var t := Runs.Step(Runs.Step(Runs.Step(s, es[0]), es[1]), es[2]);
      && t.claim == (if e.claim.Some? then e.claim.value else s.claim)
      && e.entry.Some? && t.rec == e.entry.value && t.pending == Runs.Nothing
  {
  }

  predicate PolicyWithin(l: PolicyLookup, max: int) {
    l.Matched? ==> ValidPolicy(l.policy) && l.policy.maxCapacity <= max
  }

  /** The policies this autoscaler applies are admissible and allow at most `max`. */
  ghost predicate PoliciesWithin(w: World, s: Cluster, name: string, max: int) {
    forall p, n :: p in s.pvcas && s.pvcas[p].autoscaler == name ==>
      PolicyWithin(GetVolumePolicy(w.glob, n, s.pvcas[p].rules), max)
  }

  /** The events of a tick keep at most one expansion outstanding, raise only the requests of
      idle claims, and pay for a write from the budget. */
  lemma EventsKeepSingleFlight(w: World, policy: Policy, k: Key, s: Runs.Sys, max: int, width: int)
    requires w.judgedAt(k) <= w.stampedAt(k) && s.pending == Runs.Nothing && Runs.OneExpansion(s.claim, max)
    requires ValidPolicy(policy) && policy.maxCapacity <= max && Gap(s.claim.status, max) <= width
    ensures
      var c, d := s.claim, Runs.Run(s, Events(w, policy, k)).claim;
      && Runs.OneExpansion(d, max) && d.status == c.status && (d.spec > c.spec ==> Runs.Idle(c))
      && Runs.Budget(d, max, width) + (if d.spec != c.spec then 1 else 0) <= Runs.Budget(c, max, width)
  {
    var es := Events(w, policy, k);
    RunThree(s, es[0], es[1], es[2]);
    var a := BeforeLanding(w, policy, k, s, max);
    Runs.SingleFlightStep(a, es[2], max);
    Runs.BudgetStep(a, es[2], max, width);
  }

  /** Until the patch lands, the claim is as it was read. */
  lemma BeforeLanding(w: World, policy: Policy, k: Key, s: Runs.Sys, max: int) returns (a: Runs.Sys)
    requires w.judgedAt(k) <= w.stampedAt(k) && s.pending == Runs.Nothing && Runs.OneExpansion(s.claim, max)
    requires ValidPolicy(policy) && policy.maxCapacity <= max
    ensures
      var es := Events(w, policy, k);
      a == Runs.Step(Runs.Step(s, es[0]), es[1]) && a.claim == s.claim && Runs.Inv(a, max)
  {
    var es := Events(w, policy, k);
    Runs.LookStep(s, es[0], max);
    a := Runs.Step(Runs.Step(s, es[0]), es[1]);
  }

  lemma EffectKeepsSingleFlight(
    w: World, rules: seq<Rule>, holders: seq<Key>, k: Key, c: Claim, entry: Rec, max: int, width: int)
    requires w.judgedAt(k) <= w.stampedAt(k) && Runs.OneExpansion(c, max) && Gap(c.status, max) <= width
    requires PolicyWithin(GetVolumePolicy(w.glob, k.name, rules), max)
    ensures
      var e := EffectOn(w, rules, holders, k, Some(c), entry);
      e.claim.Some? ==>
        && var d := e.claim.value;
        && Runs.OneExpansion(d, max) && d.status == c.status && (d.spec > c.spec ==> Runs.Idle(c))
        && Runs.Budget(d, max, width) + 1 <= Runs.Budget(c, max, width)
  {
    var e := EffectOn(w, rules, holders, k, Some(c), entry);
    if e.claim.Some? {
      var policy := GetVolumePolicy(w.glob, k.name, rules).policy;
      assert |holders| <= 1 && w.readable(k);
      TickIsRun(w, rules, holders, k, c, entry, 0);
      EventsKeepSingleFlight(w, policy, k, Runs.Sys(c, 0, entry, w.judgedAt(k), Runs.Nothing), max, width);
      EffectRecords(w, rules, holders, k, c, entry);
    }
  }

  /** What a tick does to a claim is the effect of one object on it, or nothing. */
  lemma TickIsEffect(w: World, s: Cluster, name: string, list: seq<Key>, owners: Owners, order: seq<Key>, k: Key)
    returns (rules: seq<Rule>, holders: seq<Key>, entry: Rec)
    requires Plan(w, s, name, list, owners, order) && k in s.claims
    ensures |holders| > 1 || exists p :: p in list && s.pvcas[p].rules == rules
    ensures
      var t, e := TickAll(w, s, list, owners, order), EffectOn(w, rules, holders, k, Some(s.claims[k]), entry);
      && Get(t.claims, k) == (if e.claim.Some? then e.claim else Some(s.claims[k]))
      && t.writes[k] == s.writes[k] + (if e.claim.Some? then 1 else 0)
  {
    var f := s.(pvcas := FetchPhase(w, s.pvcas, list));
    if p :| p in order && Owns(w, owners, p, k) {
      PlanDisjoint(w, s, name, list, owners, order);
      AfterTick(w, owners, f, order, p, k);
      FetchPhaseAt(w, s.pvcas, list, p);
      var pvca, names := s.pvcas[p], w.fetch(p).names;
      var x, start := CtxOf(w, p.ns, pvca.rules, owners), Start(w, pvca, names, s.claims);
      CtxSound(w, p.ns, pvca.rules, owners);
      VisitIsLocal(x, start, names, k.name);
      assert Key(x.ns, k.name) == k;
      rules, holders, entry := pvca.rules, OwnersAt(owners, k), GetOrCreate(start.recs, k.name);
    } else {
      UnownedUntouched(w, owners, f, order, k);
      rules, holders, entry := [], [k, k], FreshRec(k.name);
    }
  }

  /** A whole tick, with any number of autoscaler objects in any order, keeps every claim with at
      most one expansion outstanding, raises only the requests of idle claims, and pays for each
      write from the budget of the claim. */
  lemma TickKeepsSingleFlight(
    w: World, s: Cluster, name: string, list: seq<Key>, owners: Owners, order: seq<Key>, k: Key, max: int, width: int)
    requires Plan(w, s, name, list, owners, order) && PoliciesWithin(w, s, name, max)
    requires k in s.claims && Runs.OneExpansion(s.claims[k], max) && w.judgedAt(k) <= w.stampedAt(k)
    ensures
      var t := TickAll(w, s, list, owners, order);
      && k in t.claims
      && var c, d := s.claims[k], t.claims[k];
      && Runs.OneExpansion(d, max) && d.status == c.status && (d.spec > c.spec ==> Runs.Idle(c))
      && (Gap(c.status, max) <= width ==>
            Runs.Budget(d, max, width) + t.writes[k] <= Runs.Budget(c, max, width) + s.writes[k])
  {
    var gap := Gap(s.claims[k].status, max);
    var rules, holders, entry := TickIsEffect(w, s, name, list, owners, order, k);
    if |holders| <= 1 {
      var p :| p in list && s.pvcas[p].rules == rules;
      assert PolicyWithin(GetVolumePolicy(w.glob, k.name, s.pvcas[p].rules), max);
      EffectKeepsSingleFlight(w, rules, holders, k, s.claims[k], entry, max, if gap <= width then width else gap);
    }
  }

  ghost predicate AllOneExpansion(s: Cluster, max: int) {
    forall k :: k in s.claims ==> Runs.OneExpansion(s.claims[k], max)
  }

  /** The storage driver leaves request and annotation alone; the capacity stays or becomes what
      was requested. */
  predicate DriverStep(c: Claim, d: Claim) {
    d.spec == c.spec && d.prev == c.prev && (d.status == c.status || d.status == c.spec)
  }

  /** Between ticks the storage driver binds claims, completes expansions and reports conditions,
      claims come, bound or not, and go, but nobody else edits a request or the annotation. */
  ghost predicate DriverOnly(s: Cluster, t: Cluster) {
    && t.writes == s.writes
    && forall k :: k in t.claims ==>
         if k in s.claims then DriverStep(s.claims[k], t.claims[k])
         else Runs.Idle(t.claims[k]) || Runs.Unbound(t.claims[k])
  }

  ghost predicate Undisturbed(s: Cluster, name: string, c: Change, max: int) {
    match c
    case Ticked(w, _, _, _) => PoliciesWithin(w, s, name, max) && forall k :: w.judgedAt(k) <= w.stampedAt(k)
    case Edited(t) => DriverOnly(s, t)
  }

  /** Single flight for the whole cluster: through every sequence of ticks, driver actions and
      edits to autoscaler objects, no claim ever has two expansions outstanding or a request
      below its capacity. */
  lemma {:induction false} ClusterSingleFlight(
    states: seq<Cluster>, changes: seq<Change>, name: string, max: int, i: nat)
    requires IsRun(states, changes, name) && i < |states| && AllOneExpansion(states[0], max)
    requires forall j :: 0 <= j < |changes| ==> Undisturbed(states[j], name, changes[j], max)
    ensures AllOneExpansion(states[i], max)
  {
    if i > 0 {
      ClusterSingleFlight(states, changes, name, max, i - 1);
      var s, c := states[i - 1], changes[i - 1];
      assert Follows(states, changes, name, i - 1) && Undisturbed(s, name, c, max);
      if c.Ticked? {
        forall k | k in states[i].claims ensures Runs.OneExpansion(states[i].claims[k], max) {
          TickClaims(c.w, s, name, c.list, c.owners, c.order, k);
          TickKeepsSingleFlight(c.w, s, name, c.list, c.owners, c.order, k, max, 0);
        }
      }
    }
  }

  /** One change pays for the writes to a claim from its budget. */
  lemma ChangeBudget(s: Cluster, c: Change, name: string, k: Key, max: int, width: int)
    requires Legal(s, name, c) && Undisturbed(s, name, c, max)
    requires k in s.claims && k in After(s, name, c).claims
    requires Runs.OneExpansion(s.claims[k], max) && Gap(s.claims[k].status, max) <= width
    ensures
      var t := After(s, name, c);
      && Runs.OneExpansion(t.claims[k], max) && Gap(t.claims[k].status, max) <= width
      && Runs.Budget(t.claims[k], max, width) + t.writes[k] <= Runs.Budget(s.claims[k], max, width) + s.writes[k]
  {
    if c.Ticked? {
      TickKeepsSingleFlight(c.w, s, name, c.list, c.owners, c.order, k, max, width);
    } else {
      Runs.DriverBudget(s.claims[k], c.after.claims[k], max, width);
    }
  }

  lemma {:induction false} WritesWithinBudget(
    states: seq<Cluster>, changes: seq<Change>, name: string, k: Key, max: int, width: int, i: nat)
    requires IsRun(states, changes, name) && i < |states|
    requires forall j :: 0 <= j < |changes| ==> Undisturbed(states[j], name, changes[j], max)
    requires forall j :: 0 <= j <= i ==> k in states[j].claims
    requires Runs.OneExpansion(states[0].claims[k], max) && Gap(states[0].claims[k].status, max) <= width
    ensures
      var s, t := states[0], states[i];
      && Runs.OneExpansion(t.claims[k], max) && Gap(t.claims[k].status, max) <= width
      && Runs.Budget(t.claims[k], max, width) + t.writes[k] <= Runs.Budget(s.claims[k], max, width) + s.writes[k]
  {
    if i > 0 {
      WritesWithinBudget(states, changes, name, k, max, width, i - 1);
      assert Follows(states, changes, name, i - 1) && Undisturbed(states[i - 1], name, changes[i - 1], max);
      ChangeBudget(states[i - 1], changes[i - 1], name, k, max, width);
    }
  }

  /** No endless oscillation in the cluster: through every sequence of ticks, driver actions and
      edits to autoscaler objects during which a claim exists, it is patched at most
      r * (1 + ceil(log2(g))) times, for its room r and gap g below the largest maximum. */
  lemma ClusterWritesBounded(states: seq<Cluster>, changes: seq<Change>, name: string, k: Key, max: int, i: nat)
    requires IsRun(states, changes, name) && i < |states|
    requires forall j :: 0 <= j < |changes| ==> Undisturbed(states[j], name, changes[j], max)
    requires forall j :: 0 <= j <= i ==> k in states[j].claims
    requires Runs.Idle(states[0].claims[k]) || Runs.Unbound(states[0].claims[k])
    ensures
      var size := states[0].claims[k].status;
      states[i].writes[k] - states[0].writes[k] <= (1 + CeilLog2(Gap(size, max))) * Runs.Room(size, max)
  {
    var width := Gap(states[0].claims[k].status, max);
    WritesWithinBudget(states, changes, name, k, max, width, i);
    Runs.BudgetNonNegative(states[i].claims[k], max, width);
  }

  // ----- one observation, one scale-up -----

  /** The policies this autoscaler applies to the claim are admissible and share the maximum. */
  ghost predicate SharedMax(w: World, s: Cluster, name: string, k: Key, max: int) {
    forall p :: p in s.pvcas && s.pvcas[p].autoscaler == name ==>
      FixedPolicy(GetVolumePolicy(w.glob, k.name, s.pvcas[p].rules), max)
  }

  predicate FixedPolicy(l: PolicyLookup, max: int) {
    l.Matched? ==> ValidPolicy(l.policy) && l.policy.maxCapacity == max
  }

  /** The report of the claim is of more than this size. */
  predicate ReportsMoreThan(w: World, k: Key, size: int) { k in w.metrics && w.metrics[k].capBytes > size }

  /** The events of a tick guard a claim they grow, and keep it guarded while it stays beyond the
      size; a guarded claim grows only on a report of more than that size. */
  lemma EventsGuard(w: World, policy: Policy, k: Key, s: Runs.Sys, size: nat, max: int)
    requires w.judgedAt(k) <= w.stampedAt(k) && s.pending == Runs.Nothing && Runs.OneExpansion(s.claim, max)
    requires ValidPolicy(policy) && policy.maxCapacity == max
    ensures
      var c, d := s.claim, Runs.Run(s, Events(w, policy, k)).claim;
      && (d.spec > c.spec ==> Runs.GuardedClaim(d, c.spec, max))
      && (Runs.GuardedClaim(c, size, max) ==>
            && (Runs.Beyond(size, d.spec, max) ==> Runs.GuardedClaim(d, size, max))
            && (d.spec > c.spec ==> ReportsMoreThan(w, k, size)))
  {
    var es := Events(w, policy, k);
    RunThree(s, es[0], es[1], es[2]);
    var a := BeforeLanding(w, policy, k, s, max);
    assert Runs.FixedMax([es[0]], max) && Runs.FixedMax([es[2]], max);
    Runs.TunedStep(s, es[0], max);
    Runs.SingleFlightStep(a, es[2], max);
    var t := Runs.Step(a, es[2]);
    if t.claim.spec > s.claim.spec { Runs.GuardedByGrowth(a, es[2], max); }
    if Runs.GuardedClaim(s.claim, size, max) {
      Runs.GuardedStep(s, es[0], size, max);
      if Runs.Beyond(size, t.claim.spec, max) { Runs.GuardedStep(a, es[2], size, max); }
    }
  }

  lemma TickGuards(
    w: World, s: Cluster, name: string, list: seq<Key>, owners: Owners, order: seq<Key>, k: Key, size: nat, max: int)
    requires Plan(w, s, name, list, owners, order) && SharedMax(w, s, name, k, max)
    requires k in s.claims && Runs.OneExpansion(s.claims[k], max) && w.judgedAt(k) <= w.stampedAt(k)
    ensures
      var t := TickAll(w, s, list, owners, order);
      && k in t.claims
      && var c, d := s.claims[k], t.claims[k];
      && (d.spec > c.spec ==> Runs.GuardedClaim(d, c.spec, max))
      && (Runs.GuardedClaim(c, size, max) ==>
            && (Runs.Beyond(size, d.spec, max) ==> Runs.GuardedClaim(d, size, max))
            && (d.spec > c.spec ==> ReportsMoreThan(w, k, size)))
  {
    var rules, holders, entry := TickIsEffect(w, s, name, list, owners, order, k);
    var c := s.claims[k];
    if EffectOn(w, rules, holders, k, Some(c), entry).claim.Some? {
      assert |holders| <= 1 && w.readable(k);
      var p :| p in list && s.pvcas[p].rules == rules;
      var policy := GetVolumePolicy(w.glob, k.name, s.pvcas[p].rules).policy;
      TickIsRun(w, rules, holders, k, c, entry, 0);
      EventsGuard(w, policy, k, Runs.Sys(c, 0, entry, w.judgedAt(k), Runs.Nothing), size, max);
    }
  }

  /** At change m the claim exists, its request is beyond the size, and the policies for it share
      the maximum. */
  ghost predicate BeyondAt(
    states: seq<Cluster>, changes: seq<Change>, name: string, k: Key, size: int, max: int, m: nat)
    requires m < |changes| < |states|
  {
    && k in states[m].claims && Runs.Beyond(size, states[m].claims[k].spec, max)
    && (changes[m].Ticked? ==> SharedMax(changes[m].w, states[m], name, k, max))
  }

  lemma ChangeGuards(s: Cluster, c: Change, name: string, k: Key, size: nat, max: int)
    requires Legal(s, name, c) && Undisturbed(s, name, c, max) && (c.Ticked? ==> SharedMax(c.w, s, name, k, max))
    requires k in s.claims && Runs.OneExpansion(s.claims[k], max)
    requires k in After(s, name, c).claims && Runs.Beyond(size, After(s, name, c).claims[k].spec, max)
    ensures
      var d := After(s, name, c).claims[k];
      && (Runs.GuardedClaim(s.claims[k], size, max) ==> Runs.GuardedClaim(d, size, max))
      && (c.Ticked? && d.spec > s.claims[k].spec == size ==> Runs.GuardedClaim(d, size, max))
  {
    if c.Ticked? {
      TickGuards(c.w, s, name, c.list, c.owners, c.order, k, size, max);
    }
  }

  lemma {:induction false} GuardedSince(
    states: seq<Cluster>, changes: seq<Change>, name: string, k: Key, size: nat, max: int, i: nat, m: nat)
    requires IsRun(states, changes, name) && AllOneExpansion(states[0], max) && i < m < |changes|
    requires forall j :: 0 <= j < |changes| ==> Undisturbed(states[j], name, changes[j], max)
    requires GrowthAt(states, changes, k, i) && states[i].claims[k].spec == size
    requires SharedMax(changes[i].w, states[i], name, k, max)
    requires forall n :: i < n <= m ==> BeyondAt(states, changes, name, k, size, max, n)
    ensures k in states[m].claims && Runs.GuardedClaim(states[m].claims[k], size, max)
    decreases m
  {
    var n := m - 1;
    assert BeyondAt(states, changes, name, k, size, max, m);
    assert Follows(states, changes, name, n) && Undisturbed(states[n], name, changes[n], max);
    ClusterSingleFlight(states, changes, name, max, n);
    if n > i {
      assert BeyondAt(states, changes, name, k, size, max, n);
      GuardedSince(states, changes, name, k, size, max, i, n);
    }
    ChangeGuards(states[n], changes[n], name, k, size, max);
  }

  /** One observation, one scale-up, for cluster runs: after a tick has scaled a claim up from some
      size, and while its request stays beyond the tolerance of that size, a later tick scales it
      up again only on a report of more than that size, whichever objects do it. */
  lemma ClusterOneObservation(
    states: seq<Cluster>, changes: seq<Change>, name: string, k: Key, size: nat, max: int, i: nat, j: nat)
    requires IsRun(states, changes, name) && AllOneExpansion(states[0], max) && i < j < |changes|
    requires forall m :: 0 <= m < |changes| ==> Undisturbed(states[m], name, changes[m], max)
    requires GrowthAt(states, changes, k, i) && states[i].claims[k].spec == size
    requires SharedMax(changes[i].w, states[i], name, k, max)
    requires forall m :: i < m <= j ==> BeyondAt(states, changes, name, k, size, max, m)
    requires GrowthAt(states, changes, k, j)
    ensures ReportsMoreThan(changes[j].w, k, size)
  {
    GuardedSince(states, changes, name, k, size, max, i, j);
    assert Follows(states, changes, name, j) && BeyondAt(states, changes, name, k, size, max, j);
    assert Undisturbed(states[j], name, changes[j], max);
    ClusterSingleFlight(states, changes, name, max, j);
    var c := changes[j];
    TickGuards(c.w, states[j], name, c.list, c.owners, c.order, k, size, max);
  }

  lemma TickClaims(w: World, s: Cluster, name: string, list: seq<Key>, owners: Owners, order: seq<Key>, k: Key)
    requires Plan(w, s, name, list, owners, order) && k in TickAll(w, s, list, owners, order).claims
    ensures k in s.claims
  {
    var f := s.(pvcas := FetchPhase(w, s.pvcas, list));
    InOrderClaims(w, owners, f, order);
  }

  lemma {:induction false} InOrderClaims(w: World, owners: Owners, s: Cluster, order: seq<Key>)
    requires Reconcilable(w, s, order)
    ensures InOrder(w, owners, s, order).claims.Keys == s.claims.Keys
  {
    if order != [] {
      NoDupSplit(order);
      var n := |order| - 1;
      InOrderClaims(w, owners, s, order[..n]);
      ReconcileFrame(w, owners, InOrder(w, owners, s, order[..n]), order[n], order[n]);
    }
  }
}
