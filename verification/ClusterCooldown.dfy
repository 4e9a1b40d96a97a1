/** Cooldown across the ticks of a whole cluster: the time of the last resize travels in the
    status of the autoscaler object that lists the claim. */
module ClusterCooldown {
  import opened Api
  import opened ClaimLogic
  import opened Recommendations
  import opened Visiting
  import opened Tick
  import opened Ownership

  // ----- what one object does to a claim it fetches -----

  /** The effect of this tick on a claim, as seen by an object that fetches it. */
  function OwnEffect(w: World, owners: Owners, s: Cluster, p: Key, k: Key): Effect
    requires p in s.pvcas && w.fetch(p).Fetched?
  {
    var pvca := s.pvcas[p];
    var kept := Filtered(pvca.recs, Survives(w, pvca.rules, w.fetch(p).names));
    CtxOf(w, p.ns, pvca.rules, owners).effect(k.name, Get(s.claims, k), GetOrCreate(kept, k.name))
  }

  /** If an object fetches a claim, nobody else touches the claim in that tick: its new size and,
      if the status patch succeeds, its new entry are what the object's own effect says; without
      a policy the entry is dropped. */
  lemma FetchedMeansOwnDoing(
    w: World, s: Cluster, name: string, list: seq<Key>, owners: Owners, order: seq<Key>, p: Key, k: Key)
    requires Plan(w, s, name, list, owners, order) && p in list && Distinct(s.pvcas[p].recs) && Fetches(w, p, k)
    ensures
      var t, e := TickAll(w, s, list, owners, order), OwnEffect(w, owners, s, p, k);
      && Get(t.claims, k) == (if e.claim.Some? then e.claim else Get(s.claims, k))
      && p in t.pvcas
      && (w.statusSaved(p) ==>
            Lookup(t.pvcas[p].recs, k.name) ==
            if e.entry.Some? then e.entry
            else if HasPolicy(w, s, p, k.name) then Lookup(s.pvcas[p].recs, k.name)
            else None)
  {
    OwnClaim(w, s, name, list, owners, order, p, k);
    var f := s.(pvcas := FetchPhase(w, s.pvcas, list));
    FetchPhaseAt(w, s.pvcas, list, p);
    PlanDisjoint(w, s, name, list, owners, order);
    AfterTick(w, owners, f, order, p, p);
    CtxSound(w, p.ns, s.pvcas[p].rules, owners);
    assert k == Key(p.ns, k.name);
    PublishedListIntegrity(w, owners, p, s.pvcas[p], s.claims, k.name);
  }

  lemma OwnClaim(w: World, s: Cluster, name: string, list: seq<Key>, owners: Owners, order: seq<Key>, p: Key, k: Key)
    requires Plan(w, s, name, list, owners, order) && p in order && Fetches(w, p, k)
    ensures
      var e := OwnEffect(w, owners, s, p, k);
      Get(TickAll(w, s, list, owners, order).claims, k) == (if e.claim.Some? then e.claim else Get(s.claims, k))
  {
    var f := s.(pvcas := FetchPhase(w, s.pvcas, list));
    var pvca, names := s.pvcas[p], w.fetch(p).names;
    var x := CtxOf(w, p.ns, pvca.rules, owners);
    FetchPhaseAt(w, s.pvcas, list, p);
    CtxSound(w, p.ns, pvca.rules, owners);
    assert k == Key(p.ns, k.name);
    if Owns(w, owners, p, k) {
      PlanDisjoint(w, s, name, list, owners, order);
      AfterTick(w, owners, f, order, p, k);
      VisitIsLocal(x, Start(w, pvca, names, s.claims), names, k.name);
    } else {
      UnownedUntouched(w, owners, f, order, k);
    }
  }

  // ----- growth -----

  predicate Raises(e: Effect, claim: Option<Claim>) {
    claim.Some? && e.claim.Some? && e.claim.value.spec > claim.value.spec
  }

  /** Only growth stamps the recorded entry, and it happens only out of cooldown. */
  lemma EffectStamps(w: World, rules: seq<Rule>, holders: seq<Key>, k: Key, claim: Option<Claim>, entry: Rec)
    ensures
      var e, l := EffectOn(w, rules, holders, k, claim, entry), GetVolumePolicy(w.glob, k.name, rules);
      && (e.entry.Some? ==>
            e.entry.value.lastResize == if Raises(e, claim) then Some(w.stampedAt(k)) else entry.lastResize)
      && (Raises(e, claim) ==> e.entry.Some? && l.Matched? && l.policy.strategy != Off
                               && !InCooldown(l.policy, entry, w.judgedAt(k)))
  {
  }

  /** The object is going to raise the request of the claim. */
  predicate GrowthDue(w: World, owners: Owners, s: Cluster, p: Key, k: Key) {
    p in s.pvcas && Fetches(w, p, k) && Raises(OwnEffect(w, owners, s, p, k), Get(s.claims, k))
  }

  /** A tick raises the request of a claim exactly when one of its objects is going to. */
  lemma GrewIff(w: World, s: Cluster, name: string, list: seq<Key>, owners: Owners, order: seq<Key>, k: Key)
    requires Plan(w, s, name, list, owners, order)
    ensures Grew(s, TickAll(w, s, list, owners, order), k) <==>
              exists p :: p in list && GrowthDue(w, owners, s, p, k)
  {
    var t := TickAll(w, s, list, owners, order);
    if p :| p in list && GrowthDue(w, owners, s, p, k) {
      OwnClaim(w, s, name, list, owners, order, p, k);
      assert k in s.claims && Get(t.claims, k).Some?;
    } else if p :| p in order && Owns(w, owners, p, k) {
      OwnClaim(w, s, name, list, owners, order, p, k);
      assert !GrowthDue(w, owners, s, p, k);
    } else {
      UnownedUntouched(w, owners, s.(pvcas := FetchPhase(w, s.pvcas, list)), order, k);
    }
  }

  /** One tick, for an object that fetches the claim: the claim grows exactly when that object
      says so, and only if the stamp in its entry has cooled down; if the status patch succeeds,
      the entry then holds the new stamp, and without growth the old one while there is a
      policy. */
  lemma TickStamps(w: World, s: Cluster, name: string, list: seq<Key>, owners: Owners, order: seq<Key>, p: Key, k: Key)
    requires Plan(w, s, name, list, owners, order) && p in list && Distinct(s.pvcas[p].recs) && Fetches(w, p, k)
    ensures
      var t := TickAll(w, s, list, owners, order);
      && p in t.pvcas
      && var before, after := Lookup(s.pvcas[p].recs, k.name), Lookup(t.pvcas[p].recs, k.name);
      && (Grew(s, t, k) <==> GrowthDue(w, owners, s, p, k))
      && (Grew(s, t, k) ==>
            && var l := GetVolumePolicy(w.glob, k.name, s.pvcas[p].rules);
            && l.Matched? && l.policy.strategy != Off
            && (before.Some? ==> !InCooldown(l.policy, before.value, w.judgedAt(k)))
            && (w.statusSaved(p) ==> after.Some? && after.value.lastResize == Some(w.stampedAt(k))))
      && (!Grew(s, t, k) && before.Some? && w.statusSaved(p) && HasPolicy(w, s, p, k.name) ==>
            after.Some? && after.value.lastResize == before.value.lastResize)
  {
    FetchedMeansOwnDoing(w, s, name, list, owners, order, p, k);
    var pvca := s.pvcas[p];
    var kept := Filtered(pvca.recs, Survives(w, pvca.rules, w.fetch(p).names));
    assert k == Key(p.ns, k.name);
    EffectStamps(w, pvca.rules, OwnersAt(owners, k), k, Get(s.claims, k), GetOrCreate(kept, k.name));
    FilteredLookup(pvca.recs, Survives(w, pvca.rules, w.fetch(p).names), k.name);
  }

  // ----- when the stamp is lost -----

  /** The status patch succeeds and the claim is not fetched or has no policy. */
  predicate Drops(w: World, s: Cluster, p: Key, k: Key)
    requires p in s.pvcas
  {
    w.statusSaved(p) && !(Fetches(w, p, k) && HasPolicy(w, s, p, k.name))
  }

  /** A tick takes a listed claim off the list exactly when it drops it. */
  lemma DroppedIff(w: World, s: Cluster, name: string, list: seq<Key>, owners: Owners, order: seq<Key>, p: Key, k: Key)
    requires Plan(w, s, name, list, owners, order) && p in list && Distinct(s.pvcas[p].recs)
    requires p.ns == k.ns && Lists(s.pvcas[p].recs, k.name)
    ensures
      var t := TickAll(w, s, list, owners, order);
      p in t.pvcas && (Lists(t.pvcas[p].recs, k.name) <==> !Drops(w, s, p, k))
  {
    assert k == Key(p.ns, k.name);
    ListsAfterTick(w, s, name, list, owners, order, p, k.name);
  }

  /** A status patch that fails leaves the object as it was. */
  lemma UnsavedUntouched(
    w: World, s: Cluster, name: string, list: seq<Key>, owners: Owners, order: seq<Key>, p: Key)
    requires Plan(w, s, name, list, owners, order) && p in list && !w.statusSaved(p)
    ensures
      var t := TickAll(w, s, list, owners, order);
      p in t.pvcas && t.pvcas[p] == s.pvcas[p]
  {
    var f := s.(pvcas := FetchPhase(w, s.pvcas, list));
    FetchPhaseAt(w, s.pvcas, list, p);
    if p in order {
      PlanDisjoint(w, s, name, list, owners, order);
      AfterTick(w, owners, f, order, p, p);
    } else {
      UntouchedBefore(w, owners, f, order, p);
    }
  }

  /** The tick loses the time of the last scale-up of a listed claim: it drops the entry, or the
      claim grows and the status patch that should store the new time fails. */
  ghost predicate LosesStamp(w: World, owners: Owners, s: Cluster, list: seq<Key>, p: Key, k: Key)
    requires p in s.pvcas && Lists(s.pvcas[p].recs, k.name)
  {
    || Drops(w, s, p, k)
    || (&& !w.statusSaved(p) && (exists q :: q in list && GrowthDue(w, owners, s, q, k))
        && Lookup(s.pvcas[p].recs, k.name).value.lastResize != Some(w.stampedAt(k)))
  }

  /** After a tick the entry of a claim holds the time of its last scale-up if and only if the tick
      does not lose it. */
  lemma StampKeptIff(
    w: World, s: Cluster, name: string, list: seq<Key>, owners: Owners, order: seq<Key>, p: Key, k: Key)
    requires Plan(w, s, name, list, owners, order) && p in list && Distinct(s.pvcas[p].recs)
    requires p.ns == k.ns && Lists(s.pvcas[p].recs, k.name)
    ensures
      var t := TickAll(w, s, list, owners, order);
      && p in t.pvcas
      && var before, after := Lookup(s.pvcas[p].recs, k.name).value, Lookup(t.pvcas[p].recs, k.name);
      (&& after.Some?
       && after.value.lastResize == if Grew(s, t, k) then Some(w.stampedAt(k)) else before.lastResize)
      <==> !LosesStamp(w, owners, s, list, p, k)
  {
    DroppedIff(w, s, name, list, owners, order, p, k);
    GrewIff(w, s, name, list, owners, order, k);
    if !w.statusSaved(p) {
      UnsavedUntouched(w, s, name, list, owners, order, p);
    } else if Fetches(w, p, k) {
      TickStamps(w, s, name, list, owners, order, p, k);
    }
  }

  /** The claim grows although the object that lists it does not fetch it, and the status patch of
      that object, which would drop the claim, fails. */
  ghost predicate TakenOver(w: World, owners: Owners, s: Cluster, list: seq<Key>, p: Key, k: Key) {
    !w.statusSaved(p) && !Fetches(w, p, k) && exists q :: q in list && GrowthDue(w, owners, s, q, k)
  }

  /** Growth of a listed claim either is the doing of the object that lists it, or the tick drops
      the claim from that object's list, or it is a takeover. */
  lemma GrowthOfListed(
    w: World, s: Cluster, name: string, list: seq<Key>, owners: Owners, order: seq<Key>, p: Key, k: Key)
    requires Plan(w, s, name, list, owners, order) && p in list
    requires Grew(s, TickAll(w, s, list, owners, order), k)
    ensures GrowthDue(w, owners, s, p, k) || Drops(w, s, p, k) || TakenOver(w, owners, s, list, p, k)
    ensures GrowthDue(w, owners, s, p, k) ==> !Drops(w, s, p, k) && !TakenOver(w, owners, s, list, p, k)
  {
    GrewIff(w, s, name, list, owners, order, k);
    if Fetches(w, p, k) {
      OwnClaim(w, s, name, list, owners, order, p, k);
      assert k == Key(p.ns, k.name);
      CtxSound(w, p.ns, s.pvcas[p].rules, owners);
    }
  }

  /** If the growing object stores its stamp, a takeover is a lost handover. */
  lemma TakeoverLosesHandover(
    w: World, s: Cluster, name: string, list: seq<Key>, owners: Owners, order: seq<Key>, p: Key, k: Key)
    requires Plan(w, s, name, list, owners, order) && p in list && p.ns == k.ns && Lists(s.pvcas[p].recs, k.name)
    requires TakenOver(w, owners, s, list, p, k)
    requires forall q :: GrowthDue(w, owners, s, q, k) ==> w.statusSaved(q)
    ensures LostHandover(w, owners, s, list)
  {
    var q :| q in list && GrowthDue(w, owners, s, q, k);
    assert k == Key(q.ns, k.name) && Key(p.ns, k.name) == k;
    CtxSound(w, q.ns, s.pvcas[q].rules, owners);
    assert Takes(w, owners, s, q, k.name);
  }

  // ----- over runs -----

  /** The object has stamped the claim at `floor` or later. */
  predicate StampedSince(s: Cluster, p: Key, k: Key, floor: int) {
    && p in s.pvcas && Distinct(s.pvcas[p].recs)
    && var r := Lookup(s.pvcas[p].recs, k.name);
    && r.Some? && r.value.lastResize.Some? && r.value.lastResize.value >= floor
  }

  /** The cooldown in force for the claim at this change is at least d. */
  predicate CoolsFor(s: Cluster, c: Change, p: Key, k: Key, d: int)
    requires p in s.pvcas
  {
    c.Ticked? ==>
      && c.w.judgedAt(k) <= c.w.stampedAt(k)
      && var l := GetVolumePolicy(c.w.glob, k.name, s.pvcas[p].rules);
      && (l.Matched? && l.policy.strategy != Off ==> l.policy.cooldown.Some? && l.policy.cooldown.value >= d)
  }

  /** The change does not drop the claim from the list of the object. */
  predicate KeepsEntry(s: Cluster, c: Change, p: Key, k: Key)
    requires p in s.pvcas
  {
    match c
    case Ticked(w, _, _, _) => !Drops(w, s, p, k)
    case Edited(t) => p in t.pvcas && t.pvcas[p].recs == s.pvcas[p].recs
  }

  /** The object belongs to this autoscaler and cools down for at least d; change m does not drop
      the claim. */
  ghost predicate WatchedAt(states: seq<Cluster>, changes: seq<Change>, name: string, p: Key, k: Key, d: int, m: nat)
    requires m < |changes| < |states|
  {
    var s, c := states[m], changes[m];
    && p in s.pvcas && s.pvcas[p].autoscaler == name
    && CoolsFor(s, c, p, k, d) && KeepsEntry(s, c, p, k)
  }

  /** A change that does not drop the claim keeps the stamp or replaces it by a later one. */
  lemma StampStep(s: Cluster, c: Change, name: string, p: Key, k: Key, d: nat, floor: int)
    requires Legal(s, name, c) && p.ns == k.ns && StampedSince(s, p, k, floor)
    requires s.pvcas[p].autoscaler == name && CoolsFor(s, c, p, k, d) && KeepsEntry(s, c, p, k)
    ensures StampedSince(After(s, name, c), p, k, floor)
  {
    if c.Ticked? {
      ListsAfterTick(c.w, s, name, c.list, c.owners, c.order, p, k.name);
      if c.w.statusSaved(p) {
        TickStamps(c.w, s, name, c.list, c.owners, c.order, p, k);
      } else {
        UnsavedUntouched(c.w, s, name, c.list, c.owners, c.order, p);
      }
    }
  }

  lemma FirstStamp(s: Cluster, c: Change, name: string, p: Key, k: Key)
    requires Legal(s, name, c) && c.Ticked? && p in s.pvcas && s.pvcas[p].autoscaler == name
    requires Distinct(s.pvcas[p].recs) && c.w.statusSaved(p) && Fetches(c.w, p, k) && Grew(s, After(s, name, c), k)
    ensures StampedSince(After(s, name, c), p, k, c.w.stampedAt(k))
  {
    ListsAfterTick(c.w, s, name, c.list, c.owners, c.order, p, k.name);
    TickStamps(c.w, s, name, c.list, c.owners, c.order, p, k);
  }

  lemma StampAt(
    states: seq<Cluster>, changes: seq<Change>, name: string, p: Key, k: Key, d: nat, m: nat, next: nat, floor: int)
    requires |states| == |changes| + 1 && m < |changes| && next == m + 1 && Follows(states, changes, name, m)
    requires WatchedAt(states, changes, name, p, k, d, m) && p.ns == k.ns && StampedSince(states[m], p, k, floor)
    ensures StampedSince(states[next], p, k, floor)
  {
    StampStep(states[m], changes[m], name, p, k, d, floor);
  }

  /** A stamp set at change i is still there, or has been replaced by a later one, in state m. */
  lemma {:induction false} StampRemembered(
    states: seq<Cluster>, changes: seq<Change>, name: string, p: Key, k: Key, d: nat, i: nat, m: nat)
    requires IsRun(states, changes, name) && i < m < |states| && GrowthAt(states, changes, k, i)
    requires p in states[i].pvcas && states[i].pvcas[p].autoscaler == name && Distinct(states[i].pvcas[p].recs)
    requires Fetches(changes[i].w, p, k) && changes[i].w.statusSaved(p)
    requires forall n :: i < n < m ==> WatchedAt(states, changes, name, p, k, d, n)
    ensures StampedSince(states[m], p, k, changes[i].w.stampedAt(k))
    decreases m
  {
    var n := m - 1;
    assert Follows(states, changes, name, n);
    if n > i {
      StampRemembered(states, changes, name, p, k, d, i, n);
      assert WatchedAt(states, changes, name, p, k, d, n);
      StampAt(states, changes, name, p, k, d, n, m, changes[i].w.stampedAt(k));
    } else {
      FirstStamp(states[i], changes[i], name, p, k);
    }
  }

  /** Cooldown over cluster runs: once an object has stored the stamp of a scale-up, and no change
      drops the claim from its list, every later scale-up, whichever object does it, is at least
      the cooldown away, unless that scale-up is a takeover. Metrics errors, contested ticks,
      reductions, failed status patches, edits and other objects in between make no
      difference. */
  lemma ClusterCooldownHolds(
    states: seq<Cluster>, changes: seq<Change>, name: string, p: Key, k: Key, d: nat, i: nat, j: nat)
    requires IsRun(states, changes, name) && i < j < |changes|
    requires GrowthAt(states, changes, k, i) && GrowthAt(states, changes, k, j)
    requires p in states[i].pvcas && states[i].pvcas[p].autoscaler == name && Distinct(states[i].pvcas[p].recs)
    requires Fetches(changes[i].w, p, k) && changes[i].w.statusSaved(p)
    requires forall m :: i < m <= j ==> WatchedAt(states, changes, name, p, k, d, m)
    requires !TakenOver(changes[j].w, changes[j].owners, states[j], changes[j].list, p, k)
    ensures changes[j].w.judgedAt(k) >= changes[i].w.stampedAt(k) + d
  {
    StampRemembered(states, changes, name, p, k, d, i, j);
    assert Follows(states, changes, name, j) && WatchedAt(states, changes, name, p, k, d, j);
    GrowthCooled(states[j], changes[j], name, p, k, d, changes[i].w.stampedAt(k));
  }

  lemma GrowthCooled(s: Cluster, c: Change, name: string, p: Key, k: Key, d: nat, floor: int)
    requires c.Ticked? && Legal(s, name, c) && Grew(s, After(s, name, c), k) && p.ns == k.ns
    requires StampedSince(s, p, k, floor) && s.pvcas[p].autoscaler == name
    requires CoolsFor(s, c, p, k, d) && KeepsEntry(s, c, p, k) && !TakenOver(c.w, c.owners, s, c.list, p, k)
    ensures c.w.judgedAt(k) >= floor + d
  {
    GrewIff(c.w, s, name, c.list, c.owners, c.order, k);
    assert Fetches(c.w, p, k);
    TickStamps(c.w, s, name, c.list, c.owners, c.order, p, k);
  }

  /** The same without mention of takeovers, for orderly runs: the tick of the later scale-up loses
      no handover, and the object that grows the claim stores its stamp. */
  lemma OrderlyCooldownHolds(
    states: seq<Cluster>, changes: seq<Change>, name: string, p: Key, k: Key, d: nat, i: nat, j: nat)
    requires IsRun(states, changes, name) && i < j < |changes|
    requires GrowthAt(states, changes, k, i) && GrowthAt(states, changes, k, j)
    requires p in states[i].pvcas && states[i].pvcas[p].autoscaler == name && Distinct(states[i].pvcas[p].recs)
    requires Fetches(changes[i].w, p, k) && changes[i].w.statusSaved(p)
    requires forall m :: i < m <= j ==> WatchedAt(states, changes, name, p, k, d, m)
    requires Orderly(states[j], name, changes[j])
    requires forall q :: GrowthDue(changes[j].w, changes[j].owners, states[j], q, k) ==> changes[j].w.statusSaved(q)
    ensures changes[j].w.judgedAt(k) >= changes[i].w.stampedAt(k) + d
  {
    StampRemembered(states, changes, name, p, k, d, i, j);
    assert Follows(states, changes, name, j) && WatchedAt(states, changes, name, p, k, d, j);
    var c := changes[j];
    if TakenOver(c.w, c.owners, states[j], c.list, p, k) {
      TakeoverLosesHandover(c.w, states[j], name, c.list, c.owners, c.order, p, k);
    }
    ClusterCooldownHolds(states, changes, name, p, k, d, i, j);
  }

  // ----- takeovers -----

  /** A takeover does skip the cooldown: the old owner has stamped the claim at time 0 and still
      lists it, its list is not dropped because its status patch fails, and the new owner, which
      knows nothing of the stamp, scales the claim up at time 1 under a cooldown of 600. */
  lemma TakeoverSkipsCooldown(judged: Key -> int, text: (Key, Saying) -> string)
    requires judged(MOVED) == 1
    ensures
      var w, s := LosingWorld(judged, text), LosingCluster();
      var list, owners := [NEW_OWNER, OLD_OWNER], map[MOVED := [NEW_OWNER]];
      var tick := Ticked(w, list, owners, [NEW_OWNER]);
      && Legal(s, "", tick) && StampedSince(s, OLD_OWNER, MOVED, 0)
      && CoolsFor(s, tick, OLD_OWNER, MOVED, 600) && KeepsEntry(s, tick, OLD_OWNER, MOVED)
      && TakenOver(w, owners, s, list, OLD_OWNER, MOVED)
      && Grew(s, After(s, "", tick), MOVED) && w.judgedAt(MOVED) < 600
      && w.statusSaved(NEW_OWNER)
  {
    var w, s := LosingWorld(judged, text), LosingCluster();
    var list, owners := [NEW_OWNER, OLD_OWNER], map[MOVED := [NEW_OWNER]];
    assert NEW_OWNER.name[0] != OLD_OWNER.name[0];
    LosingPlan(w, s, list, owners);
    TakerGrows(w, s, owners);
    GrewIff(w, s, "", list, owners, [NEW_OWNER], MOVED);
    var rules := [Rule("*", HANDOVER_POLICY)];
    assert GetVolumePolicy(w.glob, "x", rules) == Matched(HANDOVER_POLICY);
  }

  lemma TakerGrows(w: World, s: Cluster, owners: Owners)
    requires w == LosingWorld(w.judgedAt, w.text) && s == LosingCluster() && owners == map[MOVED := [NEW_OWNER]]
    ensures GrowthDue(w, owners, s, NEW_OWNER, MOVED)
  {
    var rules, entry := [Rule("*", HANDOVER_POLICY)], FreshRec("x");
    assert GetVolumePolicy(w.glob, "x", rules) == Matched(HANDOVER_POLICY);
    assert Filtered([], Survives(w, rules, ["x"])) == [] && GetOrCreate([], "x") == entry;
    assert OwnersAt(owners, MOVED) == [NEW_OWNER];
    var info := Some(VolumeInfo(0, GI, 1, 1));
    var j := Judge(true, HANDOVER_POLICY, MOVED_CLAIM, entry, info, w.judgedAt(MOVED));
    assert j.Accepted? && j.verdict.Grow? && j.verdict.target > GI;
    assert Raises(EffectOn(w, rules, [NEW_OWNER], MOVED, Some(MOVED_CLAIM), entry), Some(MOVED_CLAIM));
    assert OwnEffect(w, owners, s, NEW_OWNER, MOVED)
        == EffectOn(w, rules, [NEW_OWNER], MOVED, Some(MOVED_CLAIM), entry);
  }
}
