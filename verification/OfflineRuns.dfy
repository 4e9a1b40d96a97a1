/** Runs of the offline-resize protocol: claims and autoscaler objects change, pods come and go,
    the webhook gates them, the work queue feeds the reconciler. */
module OfflineRuns {
  import opened Api
  import opened Visiting
  import opened Tick
  import opened Ownership
  import opened OfflineResize

  datatype Proto = Proto(cluster: Cluster, pods: map<Key, Pod>, queue: set<Key>)

  datatype Event =
    | Reconcile(k: Key, o: Outside)
    | CreatePod(p: Key, pod: Pod, o: Outside)
    | StartPod(p: Key)
    | MarkDeleted(p: Key)
    | RemovePod(p: Key)
    | UpdateClaim(k: Key, claim: Option<Claim>)
    | UpdatePvca(p: Key, pvca: Option<Pvca>)
    | RunTick(name: string, tick: Change)
    | Restart

  /** When an event can happen: the reconciler takes keys from the queue and sees the pods and
      objects there are; pods are created pending under a fresh key; gated pods are not
      scheduled. */
  ghost predicate Possible(s: Proto, e: Event) {
    match e
    case Reconcile(k, o) => k in s.queue && Faithful(o, s.cluster, s.pods, k)
    case CreatePod(p, pod, _) => p !in s.pods && pod.phase == Pending && !pod.terminating
    case StartPod(p) => p in s.pods && s.pods[p].gates == [] && s.pods[p].phase == Pending
    case MarkDeleted(p) => p in s.pods
    case RunTick(name, tick) => tick.Ticked? && Legal(s.cluster, name, tick)
    case _ => true
  }

  function ClaimRequests(k: Key, c: Option<Claim>): set<Key> {
    if c.Some? && ClaimEventPasses(c.value) then {k} else {}
  }

  /** Requests caused by the claims and autoscaler objects a tick has changed. */
  function TickRequests(s: Cluster, t: Cluster): set<Key> {
    (set k | k in s.claims && k in t.claims && s.claims[k] != t.claims[k] && ClaimEventPasses(t.claims[k])) +
    (set p, r | && p in s.pvcas && p in t.pvcas && PvcaUpdatePasses(s.pvcas[p], t.pvcas[p])
                && r in s.pvcas[p].recs + t.pvcas[p].recs :: Key(p.ns, r.name))
  }

  function Admitted(s: Proto, p: Key, pod: Pod, o: Outside): Pod {
    if ShouldGate(o, s.cluster, p.ns, pod.volumes) then AddGate(pod) else pod
  }

  function AllGatedRequests(pods: map<Key, Pod>): set<Key> {
    set p, v | p in pods && HasGate(pods[p]) && v in pods[p].volumes && v.Some? :: Key(p.ns, v.value)
  }

  /** What an event does; a tick that cannot happen does nothing. */
  ghost function Step(s: Proto, e: Event): Proto {
    match e
    case Reconcile(k, o) =>
      var (pods, outcome) := Reconciled(o, s.cluster, s.pods, k);
      s.(pods := pods, queue := if outcome == Done then s.queue - {k} else s.queue)
    case CreatePod(p, pod, o) =>
      var pod' := Admitted(s, p, pod, o);
      s.(pods := s.pods[p := pod'], queue := s.queue + (if HasGate(pod') then PodRequests(p.ns, pod') else {}))
    case StartPod(p) =>
      if p in s.pods then s.(pods := s.pods[p := s.pods[p].(phase := Running)]) else s
    case MarkDeleted(p) =>
      if p in s.pods then s.(pods := s.pods[p := s.pods[p].(terminating := true)]) else s
    case RemovePod(p) => s.(pods := s.pods - {p})
    case UpdateClaim(k, claim) =>
      var before := Get(s.cluster.claims, k);
      var claims := if claim.None? then s.cluster.claims - {k} else s.cluster.claims[k := claim.value];
      s.(cluster := s.cluster.(claims := claims),
         queue := s.queue + ClaimRequests(k, if claim.None? then before else claim))
    case UpdatePvca(p, pvca) =>
      var before := Get(s.cluster.pvcas, p);
      var pvcas := if pvca.None? then s.cluster.pvcas - {p} else s.cluster.pvcas[p := pvca.value];
      s.(cluster := s.cluster.(pvcas := pvcas),
         queue := s.queue + (if before.Some? && pvca.Some? && PvcaUpdatePasses(before.value, pvca.value)
                             then PvcaRequests(p.ns, before.value) + PvcaRequests(p.ns, pvca.value) else {}))
    case RunTick(name, tick) =>
      if Possible(s, e) then
        var t := After(s.cluster, name, tick);
        s.(cluster := t, queue := s.queue + TickRequests(s.cluster, t))
      else s
    case Restart =>
      s.(queue := (set k | k in s.cluster.claims && ClaimEventPasses(s.cluster.claims[k])) + AllGatedRequests(s.pods))
  }

  ghost predicate Follows(states: seq<Proto>, events: seq<Event>, i: nat)
    requires i < |events| < |states|
  {
    Possible(states[i], events[i]) && states[i + 1] == Step(states[i], events[i])
  }

  /** States of a run: each follows from the previous by a possible event. */
  ghost predicate IsRun(states: seq<Proto>, events: seq<Event>) {
    |states| == |events| + 1 && forall i :: 0 <= i < |events| ==> Follows(states, events, i)
  }

  /** Some gated pod waits for the claim. */
  ghost predicate Awaited(s: Proto, k: Key) { exists p :: Uses(s.pods, p, k) && HasGate(s.pods[p]) }

  // ----- what reaches the queue -----

  /** The claim was resized by the autoscaler, and its resize is stuck or waits for a mount. */
  predicate Relevant(c: Claim) { c.prev != NoAnnotation && (Stuck(c) || IsTrue(c, FileSystemResizePending)) }

  /** An update and a deletion put a claim into the queue exactly when it is relevant; what is queued
      stays queued. A restart starts over with the relevant claims and those that gated pods wait
      for. */
  lemma ClaimQueuedIff(s: Proto, k: Key, claim: Option<Claim>)
    ensures claim.Some? ==>
              (k in Step(s, UpdateClaim(k, claim)).queue <==> k in s.queue || Relevant(claim.value))
    ensures k in Step(s, UpdateClaim(k, None)).queue <==>
              k in s.queue || (k in s.cluster.claims && Relevant(s.cluster.claims[k]))
    ensures k in Step(s, Restart).queue <==> Awaited(s, k) || (k in s.cluster.claims && Relevant(s.cluster.claims[k]))
  {
    RestartQueues(s, k);
  }

  /** A claim that a tick has changed, and that is relevant then, is queued. */
  lemma TickQueues(s: Proto, k: Key, e: Event)
    requires e.RunTick? && Possible(s, e) && k in s.cluster.claims && k in Step(s, e).cluster.claims
    requires Step(s, e).cluster.claims[k] != s.cluster.claims[k] && Relevant(Step(s, e).cluster.claims[k])
    ensures k in Step(s, e).queue
  {
  }

  lemma RestartQueues(s: Proto, k: Key)
    ensures k in AllGatedRequests(s.pods) <==> Awaited(s, k)
  {
    if p :| Uses(s.pods, p, k) && HasGate(s.pods[p]) {
      var v := Some(k.name);
      assert p in s.pods && v in s.pods[p].volumes && k == Key(p.ns, v.value);
    }
  }

  /** The object listed the claim before, or lists it now. */
  ghost predicate EverListed(before: Pvca, after: Pvca, name: string) {
    exists r :: r in before.recs + after.recs && r.name == name
  }

  /** When the policies of an object change, or the names it lists, every claim it listed or lists
      is queued, whether by an edit or by a tick. */
  lemma PvcaChangeQueues(s: Proto, p: Key, e: Event, name: string)
    requires Possible(s, e) && (e.UpdatePvca? || e.RunTick?)
    requires p in s.cluster.pvcas && p in Step(s, e).cluster.pvcas
    requires
      var before, after := s.cluster.pvcas[p], Step(s, e).cluster.pvcas[p];
      && (before.rules != after.rules || multiset(RecNames(before.recs)) != multiset(RecNames(after.recs)))
      && EverListed(before, after, name)
    ensures Key(p.ns, name) in Step(s, e).queue
  {
    var before, after := s.cluster.pvcas[p], Step(s, e).cluster.pvcas[p];
    PvcaUpdatePassesIff(before, after);
    if e.UpdatePvca? {
      assert e.p == p && e.pvca == Some(after);
      RequestsCover(p.ns, before, after, name);
    } else {
      TickRequestsCover(s.cluster, Step(s, e).cluster, p, name);
    }
  }

  lemma RequestsCover(ns: string, before: Pvca, after: Pvca, name: string)
    requires EverListed(before, after, name)
    ensures Key(ns, name) in PvcaRequests(ns, before) + PvcaRequests(ns, after)
  {
    var r :| r in before.recs + after.recs && r.name == name;
    assert r in before.recs || r in after.recs;
  }

  lemma TickRequestsCover(s: Cluster, t: Cluster, p: Key, name: string)
    requires p in s.pvcas && p in t.pvcas && PvcaUpdatePasses(s.pvcas[p], t.pvcas[p])
    requires EverListed(s.pvcas[p], t.pvcas[p], name)
    ensures Key(p.ns, name) in TickRequests(s, t)
  {
    var r :| r in s.pvcas[p].recs + t.pvcas[p].recs && r.name == name;
  }

  /** Reconciling a claim for which a detach is wanted marks every running pod that uses it and whose
      eviction is accepted, unless some eviction fails hard; in any case the claim stays queued. */
  lemma DetachEvicts(s: Proto, k: Key, o: Outside, p: Key)
    requires Possible(s, Reconcile(k, o)) && UniqueOwners(s.cluster, o.autoscaler) && DetachWanted(o, s.cluster, k)
    ensures
      var t := Step(s, Reconcile(k, o));
      && k in t.queue
      && (o.readable(k) && o.ownersListable(k) && o.podsListable && Uses(s.pods, p, k)
          && s.pods[p].phase == Running && !s.pods[p].terminating && o.evict(p) == Evicted
          && (forall q :: Uses(s.pods, q, k) ==> o.evict(q) != EvictFails) ==>
            p in t.pods && t.pods[p].terminating)
  {
    if o.readable(k) && o.ownersListable(k) {
      EvictIff(o, s.cluster, k);
      var targets := PodsUsing(s.pods, o.podsListed, k);
      if p in s.pods {
        EvictedIff(o, s.pods, targets, p);
        EvictAllAt(o, s.pods, targets, p);
      }
    }
  }

  /** So a claim that gets stuck is acted upon: its update queues it, and reconciling it then evicts
      its running pods; a restart in between queues it again. */
  lemma StuckClaimIsActedUpon(s: Proto, k: Key, c: Claim, restarted: bool, o: Outside, p: Key)
    requires c.prev != NoAnnotation && IsTrue(c, ControllerResizeError) && !IsTrue(c, FileSystemResizePending)
    requires
      var u := Step(s, UpdateClaim(k, Some(c)));
      var v := if restarted then Step(u, Restart) else u;
      && Faithful(o, v.cluster, v.pods, k) && UniqueOwners(v.cluster, o.autoscaler) && DetachWanted(o, v.cluster, k)
    requires o.readable(k) && o.ownersListable(k) && o.podsListable
    requires forall q :: Uses(s.pods, q, k) ==> o.evict(q) != EvictFails
    requires Uses(s.pods, p, k) && s.pods[p].phase == Running && !s.pods[p].terminating && o.evict(p) == Evicted
    ensures
      var u := Step(s, UpdateClaim(k, Some(c)));
      var v := if restarted then Step(u, Restart) else u;
      && Possible(v, Reconcile(k, o))
      && p in Step(v, Reconcile(k, o)).pods && Step(v, Reconcile(k, o)).pods[p].terminating
  {
    var u := Step(s, UpdateClaim(k, Some(c)));
    var v := if restarted then Step(u, Restart) else u;
    assert k in v.queue;
    DetachEvicts(v, k, o, p);
  }

  // ----- no stranded gate -----

  /** Every claim of every gated pod is in the work queue. */
  ghost predicate Tracked(s: Proto) {
    forall p, k :: Uses(s.pods, p, k) && HasGate(s.pods[p]) ==> k in s.queue
  }

  /** The paths on which the reconciler gives up on a claim without touching its pods. */
  predicate GivesUp(path: Path) { path in {ClaimGone, NotManaged, NotEnabled, NotRequired} }

  /** The event makes the reconciler drop a claim that a gated pod still waits for. */
  ghost predicate Abandons(s: Proto, e: Event) {
    && e.Reconcile? && GivesUp(PathOf(e.o, s.cluster, e.k))
    && exists p :: Uses(s.pods, p, e.k) && HasGate(s.pods[p])
  }

  /** What a reconcile call does to one pod. */
  lemma ReconcileAt(s: Proto, k: Key, o: Outside, p: Key)
    requires p in s.pods && Faithful(o, s.cluster, s.pods, k)
    ensures
      var (pods, outcome) := Reconciled(o, s.cluster, s.pods, k);
      && pods.Keys == s.pods.Keys
      && pods[p].volumes == s.pods[p].volumes && pods[p].phase == s.pods[p].phase
      && (pods[p] != s.pods[p] ==> Uses(s.pods, p, k))
      && (HasGate(pods[p]) ==> HasGate(s.pods[p]))
      && (HasGate(s.pods[p]) && !HasGate(pods[p]) ==> k in s.cluster.claims && !Stuck(s.cluster.claims[k]))
      && (pods[p].terminating && !s.pods[p].terminating ==> s.pods[p].phase == Running)
      && (pods[p].terminating != s.pods[p].terminating ==> pods[p].terminating)
      && (outcome == Done && Uses(s.pods, p, k) && HasGate(pods[p]) ==> GivesUp(PathOf(o, s.cluster, k)))
  {
    var targets := PodsUsing(s.pods, o.podsListed, k);
    EvictAllAt(o, s.pods, targets, p);
    UngateAllAt(o, s.pods, targets, p);
  }

  lemma GivingUpLeavesPods(s: Proto, k: Key, o: Outside)
    requires GivesUp(PathOf(o, s.cluster, k))
    ensures Reconciled(o, s.cluster, s.pods, k) == (s.pods, Done)
  {
  }

  /** An event keeps all gated pods tracked if and only if it does not abandon one. */
  lemma TrackedStepIff(s: Proto, e: Event)
    requires Tracked(s) && Possible(s, e)
    ensures Tracked(Step(s, e)) <==> !Abandons(s, e)
  {
    var t := Step(s, e);
    match e
    case Reconcile(k, o) =>
      ReconcileTracked(s, k, o);
    case CreatePod(p, pod, o) =>
      forall q, k | Uses(t.pods, q, k) && HasGate(t.pods[q]) ensures k in t.queue {
        if q == p { PodRequestsAre(p.ns, t.pods[p], k); } else { assert Uses(s.pods, q, k); }
      }
    case Restart =>
      forall q, k | Uses(t.pods, q, k) && HasGate(t.pods[q]) ensures k in t.queue {
        var v := Some(k.name);
        assert q in t.pods && v in t.pods[q].volumes && v.Some? && k == Key(q.ns, v.value);
      }
    case _ =>
      forall q, k | Uses(t.pods, q, k) && HasGate(t.pods[q]) ensures k in t.queue {
        assert Uses(s.pods, q, k);
      }
  }

  lemma ReconcileTracked(s: Proto, k: Key, o: Outside)
    requires Tracked(s) && Possible(s, Reconcile(k, o))
    ensures Tracked(Step(s, Reconcile(k, o))) <==> !Abandons(s, Reconcile(k, o))
  {
    var e := Reconcile(k, o);
    var t := Step(s, e);
    if Abandons(s, e) {
      GivingUpLeavesPods(s, k, o);
      var p :| Uses(s.pods, p, k) && HasGate(s.pods[p]);
      assert Uses(t.pods, p, k) && HasGate(t.pods[p]) && k !in t.queue;
    } else {
      forall p, m | Uses(t.pods, p, m) && HasGate(t.pods[p]) ensures m in t.queue {
        StillTracked(s, k, o, p, m);
      }
    }
  }

  lemma StillTracked(s: Proto, k: Key, o: Outside, p: Key, m: Key)
    requires Tracked(s) && Possible(s, Reconcile(k, o)) && !Abandons(s, Reconcile(k, o))
    requires
      var t := Step(s, Reconcile(k, o));
      Uses(t.pods, p, m) && HasGate(t.pods[p])
    ensures m in Step(s, Reconcile(k, o)).queue
  {
    var (pods, outcome) := Reconciled(o, s.cluster, s.pods, k);
    ReconcileKeys(s, k, o);
    ReconcileAt(s, k, o, p);
    assert Uses(s.pods, p, m) && HasGate(s.pods[p]);
    assert m in s.queue;
  }

  lemma ReconcileKeys(s: Proto, k: Key, o: Outside)
    ensures Reconciled(o, s.cluster, s.pods, k).0.Keys == s.pods.Keys
  {
    EvictAllKeys(o, s.pods, PodsUsing(s.pods, o.podsListed, k));
    UngateAllKeys(o, s.pods, PodsUsing(s.pods, o.podsListed, k));
  }

  /** No stranded gate: through every run, including restarts, in which the reconciler abandons
      no claim, each claim of each gated pod is waiting in the queue. */
  lemma {:induction false} NoStrandedGate(states: seq<Proto>, events: seq<Event>, i: nat)
    requires IsRun(states, events) && i < |states| && Tracked(states[0])
    requires forall j :: 0 <= j < |events| ==> !Abandons(states[j], events[j])
    ensures Tracked(states[i])
  {
    if i > 0 {
      NoStrandedGate(states, events, i - 1);
      assert Follows(states, events, i - 1);
      TrackedStepIff(states[i - 1], events[i - 1]);
    }
  }

  /** Exactly when a claim is abandoned, in terms of the state: a gated pod waits for it, and it is
      gone, or it is stuck and its owner does not opt in or its error does not ask for a
      detach. Failing reads and lookups and malformed patterns are retried instead. */
  lemma AbandonsIff(s: Proto, k: Key, o: Outside)
    requires Possible(s, Reconcile(k, o)) && UniqueOwners(s.cluster, o.autoscaler)
    ensures Abandons(s, Reconcile(k, o)) <==>
              && Awaited(s, k) && o.readable(k)
              && (k in s.cluster.claims ==>
                    && Stuck(s.cluster.claims[k]) && o.ownersListable(k) && !Malformed(o, s.cluster, k)
                    && !(OptedIn(o, s.cluster, k) && OfflineResizeRequired(s.cluster.claims[k])))
  {
    if o.readable(k) && k in s.cluster.claims && Stuck(s.cluster.claims[k]) {
      StuckGivenUpIff(o, s.cluster, k);
    }
  }

  /** Ticks of this autoscaler lose no handover, and edits of its objects do not touch entries. */
  ghost predicate OrderlyEvent(s: Proto, name: string, e: Event) {
    match e
    case RunTick(runner, tick) => runner == name ==> Orderly(s.cluster, name, tick)
    case UpdatePvca(_, _) => Orderly(s.cluster, name, Edited(Step(s, e).cluster))
    case _ => true
  }

  ghost predicate OneOwnerEach(s: Proto, name: string) { AllDistinct(s.cluster, name) && UniqueOwners(s.cluster, name) }

  lemma EventKeepsOwners(s: Proto, name: string, e: Event)
    requires Possible(s, e) && OrderlyEvent(s, name, e) && OneOwnerEach(s, name)
    ensures OneOwnerEach(Step(s, e), name)
  {
    if e.UpdatePvca? {
      ChangeKeepsOwners(s.cluster, name, Edited(Step(s, e).cluster));
    } else if e.RunTick? && e.name == name {
      ChangeKeepsOwners(s.cluster, name, e.tick);
    } else if e.RunTick? {
      OtherTickKeepsOwners(s.cluster, name, e.name, e.tick);
    }
  }

  /** The ticks of another autoscaler leave this one's objects alone. */
  lemma OtherTickKeepsOwners(s: Cluster, name: string, other: string, tick: Change)
    requires tick.Ticked? && Legal(s, other, tick) && other != name && AllDistinct(s, name) && UniqueOwners(s, name)
    ensures AllDistinct(After(s, other, tick), name) && UniqueOwners(After(s, other, tick), name)
  {
    var t := After(s, other, tick);
    forall p | p in t.pvcas && t.pvcas[p].autoscaler == name ensures p in s.pvcas && t.pvcas[p] == s.pvcas[p] {
      TickKeepsSpecs(tick.w, s, other, tick.list, tick.owners, tick.order, p);
    }
    ChangeKeepsOwners(s, name, Edited(t));
  }

  /** Every claim that a gated pod waits for exists; while it is stuck, it is opted in and its error
      asks for a detach. */
  ghost predicate Justified(s: Proto, o: Outside) {
    forall k :: Awaited(s, k) ==>
      && k in s.cluster.claims
      && (Stuck(s.cluster.claims[k]) ==> OptedIn(o, s.cluster, k) && OfflineResizeRequired(s.cluster.claims[k]))
  }

  /** Event j is orderly, and if the reconciler runs, gates are justified. */
  ghost predicate JustifiedAt(states: seq<Proto>, events: seq<Event>, name: string, j: nat)
    requires j < |events| < |states|
  {
    && OrderlyEvent(states[j], name, events[j])
    && (events[j].Reconcile? ==> events[j].o.autoscaler == name && Justified(states[j], events[j].o))
  }

  /** No stranded gate, from conditions on states: as long as ticks and edits are orderly and gates
      are justified whenever the reconciler runs, owners stay unique and each claim of each gated
      pod is waiting in the queue. */
  lemma {:induction false} JustifiedGatesTracked(states: seq<Proto>, events: seq<Event>, name: string, i: nat)
    requires IsRun(states, events) && i < |states| && Tracked(states[0]) && OneOwnerEach(states[0], name)
    requires forall j :: 0 <= j < |events| ==> JustifiedAt(states, events, name, j)
    ensures Tracked(states[i]) && OneOwnerEach(states[i], name)
  {
    if i > 0 {
      JustifiedGatesTracked(states, events, name, i - 1);
      var s, e := states[i - 1], events[i - 1];
      assert JustifiedAt(states, events, name, i - 1) && Follows(states, events, i - 1);
      EventKeepsOwners(s, name, e);
      if e.Reconcile? { AbandonsIff(s, e.k, e.o); }
      TrackedStepIff(s, e);
    }
  }

  /** Once a claim is no longer stuck, reconciling it frees every pod that uses it, or leaves the
      claim in the queue. */
  lemma UngatesOrRetries(s: Proto, k: Key, o: Outside, p: Key)
    requires Possible(s, Reconcile(k, o)) && k in s.cluster.claims && !Stuck(s.cluster.claims[k]) && Uses(s.pods, p, k)
    ensures
      var t := Step(s, Reconcile(k, o));
      p in t.pods && (!HasGate(t.pods[p]) || k in t.queue)
  {
    ReconcileAt(s, k, o, p);
  }

  /** A gate can be left behind. While the claim is stuck it stops being managed, its owner stops
      opting in or the error stops asking for a detach: the next reconcile drops the claim. When
      the error then clears without a pending file system resize, the claim's update does not
      pass the event filter, and the pod is gated with nothing queued that would free it. A
      restart queues the claim again. */
  lemma AbandonedPodStaysGated(s: Proto, k: Key, o: Outside, p: Key, healthy: Claim)
    requires s.queue == {k} && Possible(s, Reconcile(k, o)) && k in s.cluster.claims
    requires Uses(s.pods, p, k) && HasGate(s.pods[p])
    requires PathOf(o, s.cluster, k) in {NotManaged, NotEnabled, NotRequired}
    requires !IsTrue(healthy, ControllerResizeError) && !IsTrue(healthy, FileSystemResizePending)
    ensures
      var t := Step(Step(s, Reconcile(k, o)), UpdateClaim(k, Some(healthy)));
      && HasGate(t.pods[p]) && t.queue == {} && t.cluster.claims[k] == healthy && !Stuck(healthy)
      && k in Step(t, Restart).queue
  {
    GivingUpLeavesPods(s, k, o);
    var v := Some(k.name);
    assert v in s.pods[p].volumes && Key(p.ns, v.value) == k;
  }

  // ----- gate safety -----

  /** Every claim the pod mounts exists and is stuck. */
  ghost predicate AllStuck(s: Proto, p: Key) {
    forall k :: Uses(s.pods, p, k) ==> k in s.cluster.claims && Stuck(s.cluster.claims[k])
  }

  lemma GateStep(s: Proto, e: Event, p: Key)
    requires Possible(s, e) && p in s.pods && HasGate(s.pods[p]) && p in Step(s, e).pods
    requires AllStuck(s, p)
    ensures HasGate(Step(s, e).pods[p])
    ensures Step(s, e).pods[p].volumes == s.pods[p].volumes
  {
    if e.Reconcile? {
      ReconcileAt(s, e.k, e.o, p);
    }
  }

  /** Gate safety: over every interleaving of events, a gated pod keeps its gate as long as all
      of its claims are stuck; for a pod with one claim, as long as that claim is. */
  lemma {:induction false} GateSafety(states: seq<Proto>, events: seq<Event>, p: Key, i: nat)
    requires IsRun(states, events) && i < |states|
    requires forall j :: 0 <= j <= i ==> p in states[j].pods && AllStuck(states[j], p)
    requires HasGate(states[0].pods[p])
    ensures HasGate(states[i].pods[p])
  {
    if i > 0 {
      GateSafety(states, events, p, i - 1);
      assert Follows(states, events, i - 1);
      GateStep(states[i - 1], events[i - 1], p);
    }
  }

  /** The API server answers the reconciler's calls. */
  ghost predicate Answers(o: Outside, k: Key) { o.readable(k) && o.podsListable && forall q :: o.patched(q) }

  /** Exactly when a reconcile call removes a gate: the pod uses the claim, and the claim is not
      stuck. Other claims of the pod play no part. */
  lemma GateRemovedIff(s: Proto, k: Key, o: Outside, p: Key)
    requires Possible(s, Reconcile(k, o)) && Answers(o, k) && p in s.pods && HasGate(s.pods[p])
    ensures
      var t := Step(s, Reconcile(k, o));
      && p in t.pods
      && (!HasGate(t.pods[p]) <==> Uses(s.pods, p, k) && k in s.cluster.claims && !Stuck(s.cluster.claims[k]))
  {
    ReconcileAt(s, k, o, p);
    if Uses(s.pods, p, k) && k in s.cluster.claims && !Stuck(s.cluster.claims[k]) {
      var targets := PodsUsing(s.pods, o.podsListed, k);
      UngateAllAt(o, s.pods, targets, p);
      NeverFails(o, s.pods, targets);
    }
  }

  /** So the gate does not last with a healthy sibling: a pod that mounts a stuck claim and a
      healthy one is gated at creation, its own creation event queues the healthy claim, and
      reconciling that one removes the gate while the other claim is still stuck. */
  lemma HealthySiblingUngates(s: Proto, p: Key, pod: Pod, stuck: Key, healthy: Key, o: Outside, o': Outside)
    requires Possible(s, CreatePod(p, pod, o)) && p.ns == stuck.ns == healthy.ns
    requires Some(stuck.name) in pod.volumes && Some(healthy.name) in pod.volumes
    requires GatesOn(o, s.cluster, stuck)
    requires healthy in s.cluster.claims && !Stuck(s.cluster.claims[healthy])
    requires var t := Step(s, CreatePod(p, pod, o)); Faithful(o', t.cluster, t.pods, healthy)
    requires Answers(o', healthy)
    ensures
      var t := Step(s, CreatePod(p, pod, o));
      var u := Step(t, Reconcile(healthy, o'));
      && HasGate(t.pods[p]) && Possible(t, Reconcile(healthy, o'))
      && Stuck(u.cluster.claims[stuck]) && p in u.pods && !HasGate(u.pods[p])
  {
    var t := Step(s, CreatePod(p, pod, o));
    GatedAtCreation(s, p, pod, stuck, o);
    PodRequestsAre(p.ns, t.pods[p], healthy);
    assert Uses(t.pods, p, healthy);
    GateRemovedIff(t, healthy, o', p);
  }

  lemma GatedAtCreation(s: Proto, p: Key, pod: Pod, k: Key, o: Outside)
    requires p.ns == k.ns && Some(k.name) in pod.volumes && GatesOn(o, s.cluster, k)
    ensures Admitted(s, p, pod, o) == AddGate(pod)
  {
  }

  lemma {:induction false} NeverFails(o: Outside, pods: map<Key, Pod>, targets: seq<Key>)
    requires forall q :: o.patched(q)
    ensures !UngateAll(o, pods, targets).failed
  {
    if targets != [] { NeverFails(o, pods, targets[..|targets| - 1]); }
  }

  // ----- bounded eviction -----

  /** Gated pods are pending. */
  ghost predicate GatedPending(s: Proto) {
    forall p :: p in s.pods && HasGate(s.pods[p]) ==> s.pods[p].phase == Pending
  }

  /** Pods using the claim that are neither gated nor on their way out. */
  function Active(s: Proto, x: Key): set<Key> {
    set p | p in s.pods && Uses(s.pods, p, x) && !HasGate(s.pods[p]) && !s.pods[p].terminating
  }

  /** Pods using the claim that this event evicts. */
  ghost function EvictedBy(s: Proto, e: Event, x: Key): set<Key> {
    if !e.Reconcile? then {}
    else set p | p in s.pods && p in Step(s, e).pods && Uses(s.pods, p, x)
                 && !s.pods[p].terminating && Step(s, e).pods[p].terminating
  }

  /** During the window every pod using the claim has only stuck claims, and the webhook works:
      a pod created with the claim is gated. */
  ghost predicate InWindow(s: Proto, e: Event, x: Key) {
    && (forall p :: Uses(s.pods, p, x) ==> AllStuck(s, p))
    && (e.CreatePod? && e.p.ns == x.ns && Some(x.name) in e.pod.volumes ==> GatesOn(e.o, s.cluster, x))
  }

  lemma PendingStep(s: Proto, e: Event)
    requires Possible(s, e) && GatedPending(s)
    ensures GatedPending(Step(s, e))
  {
    var t := Step(s, e);
    forall p | p in t.pods && HasGate(t.pods[p]) ensures t.pods[p].phase == Pending {
      if e.Reconcile? {
        ReconcileKeys(s, e.k, e.o);
        ReconcileAt(s, e.k, e.o, p);
      }
    }
  }

  /** After an event in the window the active pods are among those before, less the evicted. */
  lemma ActiveShrinks(s: Proto, e: Event, x: Key, p: Key)
    requires Possible(s, e) && GatedPending(s) && InWindow(s, e, x)
    ensures p in Active(Step(s, e), x) ==> p in Active(s, x) && p !in EvictedBy(s, e, x)
    ensures p in EvictedBy(s, e, x) ==> p in Active(s, x)
  {
    if e.Reconcile? {
      ReconcileKeys(s, e.k, e.o);
      if p in s.pods { ReconcileShrinks(s, e.k, e.o, x, p); }
    } else if e.CreatePod? && p == e.p && Uses(Step(s, e).pods, p, x) {
      GatedAtCreation(s, p, e.pod, x, e.o);
    }
  }

  lemma ReconcileShrinks(s: Proto, k: Key, o: Outside, x: Key, p: Key)
    requires Possible(s, Reconcile(k, o)) && GatedPending(s) && p in s.pods && (Uses(s.pods, p, x) ==> AllStuck(s, p))
    ensures
      var pods := Reconciled(o, s.cluster, s.pods, k).0;
      && p in pods && (Uses(pods, p, x) <==> Uses(s.pods, p, x))
      && (Uses(s.pods, p, x) ==> HasGate(pods[p]) == HasGate(s.pods[p]))
      && (pods[p].terminating && !s.pods[p].terminating ==> !HasGate(s.pods[p]))
      && (s.pods[p].terminating ==> pods[p].terminating)
  {
    ReconcileAt(s, k, o, p);
  }

  lemma EvictionStep(s: Proto, e: Event, x: Key)
    requires Possible(s, e) && GatedPending(s) && InWindow(s, e, x)
    ensures |EvictedBy(s, e, x)| + |Active(Step(s, e), x)| <= |Active(s, x)|
  {
    var a, b, c := EvictedBy(s, e, x), Active(Step(s, e), x), Active(s, x);
    forall p ensures (p in b ==> p in c && p !in a) && (p in a ==> p in c) {
      ActiveShrinks(s, e, x, p);
    }
    Subset(a + b, c);
    assert a !! b;
  }

  lemma {:induction false} Subset<T>(a: set<T>, b: set<T>)
    requires a <= b
    ensures |a| <= |b|
  {
    assert |b| == |a| + |b - a| by { assert b == a + (b - a); }
  }

  lemma EvictionAt(s: Proto, e: Event, t: Proto, x: Key)
    requires Possible(s, e) && GatedPending(s) && InWindow(s, e, x) && t == Step(s, e)
    ensures GatedPending(t) && |EvictedBy(s, e, x)| + |Active(t, x)| <= |Active(s, x)|
  {
    PendingStep(s, e);
    EvictionStep(s, e, x);
  }

  /** Evictions of pods using the claim during the first n events of a run. */
  ghost function TotalEvictions(states: seq<Proto>, events: seq<Event>, x: Key, n: nat): nat
    requires n <= |events| < |states|
  {
    if n == 0 then 0 else TotalEvictions(states, events, x, n - 1) + |EvictedBy(states[n - 1], events[n - 1], x)|
  }

  /** The window is open at event j. */
  ghost predicate OpenAt(states: seq<Proto>, events: seq<Event>, x: Key, j: nat)
    requires j < |events| < |states|
  {
    InWindow(states[j], events[j], x)
  }

  /** Bounded eviction: however long the claim stays stuck, at most as many pods are evicted for
      it as were active when the window opened, because every pod created since is gated and
      never runs. */
  lemma {:induction false} BoundedEviction(states: seq<Proto>, events: seq<Event>, x: Key, n: nat)
    requires IsRun(states, events) && n <= |events| && GatedPending(states[0])
    requires forall j :: 0 <= j < n ==> OpenAt(states, events, x, j)
    ensures GatedPending(states[n])
    ensures TotalEvictions(states, events, x, n) + |Active(states[n], x)| <= |Active(states[0], x)|
  {
    if n > 0 {
      var m := n - 1;
      BoundedEviction(states, events, x, m);
      assert Follows(states, events, m) && OpenAt(states, events, x, m);
      EvictionAt(states[m], events[m], states[n], x);
    }
  }
}
