/** Offline-resize recovery of single objects: the gate on pods, the webhook that adds it, the
    reconciler that evicts pods or removes it, and the event filters. */
module OfflineResize {
  import opened Api
  import opened Recommendations
  import opened Ordering
  import opened Visiting
  import opened Tick
  import opened Ownership

  datatype Gate = OfflineGate | OtherGate(name: string)

  datatype Phase = Pending | Running | Finished

  /** `volumes` holds the claim name of every volume backed by a claim, None for the others;
      `controlled` says whether a workload controller owns the pod. */
  datatype Pod = Pod(
    volumes: seq<Option<string>>,
    gates: seq<Gate>,
    phase: Phase,
    terminating: bool,
    controlled: bool)

  // ----- scheduling gates -----

  predicate HasGate(pod: Pod) { OfflineGate in pod.gates }

  function AddGate(pod: Pod): Pod {
    if HasGate(pod) then pod else pod.(gates := pod.gates + [OfflineGate])
  }

  function WithoutGate(gates: seq<Gate>): (r: seq<Gate>)
    ensures forall g :: g in r <==> g in gates && g != OfflineGate
  {
    if gates == [] then []
    else
      var n := |gates| - 1;
      assert gates == gates[..n] + [gates[n]];
      WithoutGate(gates[..n]) + (if gates[n] == OfflineGate then [] else [gates[n]])
  }

  function RemoveGate(pod: Pod): Pod { pod.(gates := WithoutGate(pod.gates)) }

  lemma {:induction false} WithoutAbsentGate(gates: seq<Gate>)
    requires OfflineGate !in gates
    ensures WithoutGate(gates) == gates
  {
    if gates != [] {
      var n := |gates| - 1;
      assert gates == gates[..n] + [gates[n]];
      WithoutAbsentGate(gates[..n]);
    }
  }

  /** Removing the gate undoes adding it and leaves foreign gates as they were. */
  lemma GateRoundTrip(pod: Pod)
    requires !HasGate(pod)
    ensures HasGate(AddGate(pod)) && AddGate(AddGate(pod)) == AddGate(pod)
    ensures RemoveGate(AddGate(pod)) == pod
  {
    var gs := pod.gates + [OfflineGate];
    assert gs[..|pod.gates|] == pod.gates;
    WithoutAbsentGate(pod.gates);
  }

  // ----- what the controllers see -----

  datatype EvictOutcome = Evicted | AlreadyGone | TooManyRequests | EvictFails

  /** Answers of the API server during one call: whether reads, lookups and lists succeed, in
      which order lists are returned, and the fate of evictions and patches. */
  datatype Outside = Outside(
    autoscaler: string,
    glob: Glob,
    readable: Key -> bool,
    ownersListable: Key -> bool,
    ownersListed: Key -> seq<Key>,
    podsListable: bool,
    podsListed: seq<Key>,
    evict: Key -> EvictOutcome,
    patched: Key -> bool)

  /** The lists are faithful: they contain what is there, in some order. */
  ghost predicate Faithful(o: Outside, c: Cluster, pods: map<Key, Pod>, k: Key) {
    && IndexAnswer(c, o.autoscaler, k, o.ownersListed(k))
    && NoDup(o.podsListed) && (forall p :: p in o.podsListed <==> p in pods && p.ns == k.ns)
  }

  function OwnerOf(o: Outside, c: Cluster, k: Key): Owner {
    var listed := o.ownersListed(k);
    if !o.ownersListable(k) || exists i :: 0 <= i < |listed| && listed[i] !in c.pvcas then OwnerError
    else FindOwner(o.glob, c, listed, k)
  }

  /** The owner's policy prefers in-place resizes and its target is a workload. */
  predicate OptsIn(c: Cluster, owner: Owner) {
    && owner.Owned? && owner.pvca in c.pvcas && !c.pvcas[owner.pvca].targetsClaim
    && owner.policy.Some? && owner.policy.value.strategy == PreferInPlace
  }

  // ----- the reconciler -----

  datatype Path =
    | ClaimGone
    | ReadError
    | Ungate
    | LookupError
    | NotManaged
    | NotEnabled
    | NotRequired
    | Evict

  /** The branch Reconcile takes for a claim. */
  function PathOf(o: Outside, c: Cluster, k: Key): Path {
    if !o.readable(k) then ReadError
    else if k !in c.claims then ClaimGone
    else if !Stuck(c.claims[k]) then Ungate
    else
      var owner := OwnerOf(o, c, k);
      if owner.OwnerError? then LookupError
      else if owner.Unowned? || owner.policy.None? then NotManaged
      else if !OptsIn(c, owner) then NotEnabled
      else if !OfflineResizeRequired(c.claims[k]) then NotRequired
      else Evict
  }

  /** As long as owners are unique, the branch does not depend on the order in which the index
      returns the objects that list the claim. */
  lemma PathIsDeterminate(o: Outside, c: Cluster, k: Key, other: Key -> seq<Key>)
    requires UniqueOwners(c, o.autoscaler)
    requires IndexAnswer(c, o.autoscaler, k, o.ownersListed(k)) && IndexAnswer(c, o.autoscaler, k, other(k))
    ensures PathOf(o, c, k) == PathOf(o.(ownersListed := other), c, k)
  {
    OwnerIsDeterminate(o.glob, c, o.autoscaler, k, o.ownersListed(k), other(k));
    assert forall i :: 0 <= i < |other(k)| ==> other(k)[i] in other(k);
    assert forall i :: 0 <= i < |o.ownersListed(k)| ==> o.ownersListed(k)[i] in o.ownersListed(k);
  }

  /** An object of this autoscaler lists the claim. */
  predicate ListedBy(o: Outside, c: Cluster, k: Key, p: Key) {
    p in c.pvcas && p.ns == k.ns && c.pvcas[p].autoscaler == o.autoscaler && Lists(c.pvcas[p].recs, k.name)
  }

  predicate PrefersInPlace(l: PolicyLookup) { l.Matched? && l.policy.strategy == PreferInPlace }

  /** An object that lists the claim targets a workload and selects a policy that prefers in-place
      resizes for it. */
  ghost predicate OptedIn(o: Outside, c: Cluster, k: Key) {
    exists p :: ListedBy(o, c, k, p) && !c.pvcas[p].targetsClaim
                && PrefersInPlace(GetVolumePolicy(o.glob, k.name, c.pvcas[p].rules))
  }

  /** An object that lists the claim has a malformed pattern before any that matches it. */
  ghost predicate Malformed(o: Outside, c: Cluster, k: Key) {
    exists p :: ListedBy(o, c, k, p) && GetVolumePolicy(o.glob, k.name, c.pvcas[p].rules).BadPattern?
  }

  /** With unique owners and successful lookups, pods are evicted for a claim exactly when it is
      stuck, its error asks for a detach, and it is opted in. */
  lemma EvictIff(o: Outside, c: Cluster, k: Key)
    requires UniqueOwners(c, o.autoscaler) && IndexAnswer(c, o.autoscaler, k, o.ownersListed(k))
    requires o.readable(k) && o.ownersListable(k)
    ensures PathOf(o, c, k) == Evict <==>
              k in c.claims && Stuck(c.claims[k]) && OfflineResizeRequired(c.claims[k]) && OptedIn(o, c, k)
  {
    var listing := o.ownersListed(k);
    assert forall i :: 0 <= i < |listing| ==> listing[i] in listing;
    if OptedIn(o, c, k) {
      var p :| ListedBy(o, c, k, p) && !c.pvcas[p].targetsClaim
               && PrefersInPlace(GetVolumePolicy(o.glob, k.name, c.pvcas[p].rules));
      assert p in listing && listing[0] == p;
    }
  }

  /** With unique owners, the reconciler gives up on a stuck claim exactly when the lookup works
      and the claim is not opted in or its error does not ask for a detach. */
  lemma StuckGivenUpIff(o: Outside, c: Cluster, k: Key)
    requires UniqueOwners(c, o.autoscaler) && IndexAnswer(c, o.autoscaler, k, o.ownersListed(k))
    requires o.readable(k) && k in c.claims && Stuck(c.claims[k])
    ensures PathOf(o, c, k) in {NotManaged, NotEnabled, NotRequired} <==>
              && o.ownersListable(k) && !Malformed(o, c, k)
              && !(OptedIn(o, c, k) && OfflineResizeRequired(c.claims[k]))
  {
    if o.ownersListable(k) {
      EvictIff(o, c, k);
      var listing := o.ownersListed(k);
      assert forall i :: 0 <= i < |listing| ==> listing[i] in listing;
      if p :| ListedBy(o, c, k, p) && GetVolumePolicy(o.glob, k.name, c.pvcas[p].rules).BadPattern? {
        assert p in listing && listing[0] == p;
      }
      assert |listing| > 0 ==> ListedBy(o, c, k, listing[0]);
    }
  }

  predicate Uses(pods: map<Key, Pod>, p: Key, k: Key) {
    p in pods && p.ns == k.ns && Some(k.name) in pods[p].volumes
  }

  /** The listed pods that mount the claim, in list order. */
  function PodsUsing(pods: map<Key, Pod>, listed: seq<Key>, k: Key): (r: seq<Key>)
    ensures forall p :: p in r <==> p in listed && Uses(pods, p, k)
  {
    if listed == [] then []
    else
      var n := |listed| - 1;
      assert listed == listed[..n] + [listed[n]];
      PodsUsing(pods, listed[..n], k) + (if Uses(pods, listed[n], k) then [listed[n]] else [])
  }

  datatype Evictions = Evictions(pods: map<Key, Pod>, blocked: bool, failed: bool)

  predicate Evictable(pod: Pod) { !pod.terminating && pod.phase == Running }

  function EvictOne(o: Outside, r: Evictions, p: Key): Evictions {
    if r.failed || p !in r.pods || !Evictable(r.pods[p]) then r
    else match o.evict(p)
      case Evicted => r.(pods := r.pods[p := r.pods[p].(terminating := true)])
      case AlreadyGone => r
      case TooManyRequests => r.(blocked := true)
      case EvictFails => r.(failed := true)
  }

  function EvictAll(o: Outside, pods: map<Key, Pod>, targets: seq<Key>): Evictions {
    if targets == [] then Evictions(pods, false, false)
    else EvictOne(o, EvictAll(o, pods, targets[..|targets| - 1]), targets[|targets| - 1])
  }

  datatype Ungated = Ungated(pods: map<Key, Pod>, failed: bool)

  function UngateOne(o: Outside, r: Ungated, p: Key): Ungated {
    if r.failed || p !in r.pods || !HasGate(r.pods[p]) then r
    else if o.patched(p) then r.(pods := r.pods[p := RemoveGate(r.pods[p])])
    else r.(failed := true)
  }

  function UngateAll(o: Outside, pods: map<Key, Pod>, targets: seq<Key>): Ungated {
    if targets == [] then Ungated(pods, false)
    else UngateOne(o, UngateAll(o, pods, targets[..|targets| - 1]), targets[|targets| - 1])
  }

  /** What the work queue does with a key after a call. */
  datatype Outcome = Done | RequeueAfter | Errored

  function Reconciled(o: Outside, c: Cluster, pods: map<Key, Pod>, k: Key): (map<Key, Pod>, Outcome) {
    match PathOf(o, c, k)
    case ClaimGone | NotManaged | NotEnabled | NotRequired => (pods, Done)
    case ReadError | LookupError => (pods, Errored)
    case Ungate =>
      if !o.podsListable then (pods, Errored)
      else
        var r := UngateAll(o, pods, PodsUsing(pods, o.podsListed, k));
        (r.pods, if r.failed then Errored else Done)
    case Evict =>
      if !o.podsListable then (pods, Errored)
      else
        var r := EvictAll(o, pods, PodsUsing(pods, o.podsListed, k));
        (r.pods, if r.blocked || r.failed then Errored else RequeueAfter)
  }

  lemma {:induction false} EvictAllKeys(o: Outside, pods: map<Key, Pod>, targets: seq<Key>)
    ensures EvictAll(o, pods, targets).pods.Keys == pods.Keys
  {
    if targets != [] { EvictAllKeys(o, pods, targets[..|targets| - 1]); }
  }

  lemma {:induction false} UngateAllKeys(o: Outside, pods: map<Key, Pod>, targets: seq<Key>)
    ensures UngateAll(o, pods, targets).pods.Keys == pods.Keys
  {
    if targets != [] { UngateAllKeys(o, pods, targets[..|targets| - 1]); }
  }

  /** Evictions only set the deletion mark, on running pods among the targets. Unless a call fails
      hard, every evictable target is tried: it is marked exactly when its eviction was accepted,
      and a blocked one is reported. */
  lemma {:induction false} EvictAllAt(o: Outside, pods: map<Key, Pod>, targets: seq<Key>, p: Key)
    requires p in pods
    ensures
      var r := EvictAll(o, pods, targets);
      && r.pods.Keys == pods.Keys
      && (r.pods[p] == pods[p] || (p in targets && Evictable(pods[p]) && r.pods[p] == pods[p].(terminating := true)))
      && (!r.failed && p in targets && Evictable(pods[p]) ==>
            && (r.pods[p].terminating <==> o.evict(p) == Evicted)
            && (o.evict(p) == TooManyRequests ==> r.blocked))
      && (r.pods[p] != pods[p] ==> o.evict(p) == Evicted)
  {
    if targets != [] {
      var n := |targets| - 1;
      assert targets == targets[..n] + [targets[n]];
      EvictAllAt(o, pods, targets[..n], p);
    }
  }

  /** No eviction of these targets fails hard. */
  predicate NoHardFailure(o: Outside, pods: map<Key, Pod>, targets: seq<Key>) {
    forall q :: q in targets && q in pods && Evictable(pods[q]) ==> o.evict(q) != EvictFails
  }

  /** The eviction of a target is tried and accepted. */
  ghost predicate EvictionAccepted(o: Outside, pods: map<Key, Pod>, targets: seq<Key>, p: Key) {
    && p in pods && Evictable(pods[p]) && o.evict(p) == Evicted
    && exists i :: 0 <= i < |targets| && targets[i] == p && NoHardFailure(o, pods, targets[..i])
  }

  /** A pod is marked exactly when its eviction is accepted before any hard failure. */
  lemma {:induction false} EvictedIff(o: Outside, pods: map<Key, Pod>, targets: seq<Key>, p: Key)
    requires p in pods
    ensures
      var r := EvictAll(o, pods, targets);
      && r.pods.Keys == pods.Keys
      && (r.failed <==> !NoHardFailure(o, pods, targets))
      && (r.pods[p] != pods[p] <==> EvictionAccepted(o, pods, targets, p))
  {
    if targets != [] {
      var n := |targets| - 1;
      var last := targets[n];
      assert targets == targets[..n] + [last];
      EvictedIff(o, pods, targets[..n], p);
      EvictAllAt(o, pods, targets[..n], p);
      if last in pods {
        EvictedIff(o, pods, targets[..n], last);
        EvictAllAt(o, pods, targets[..n], last);
      }
      EvictionAcceptedNext(o, pods, targets, n, p);
    }
  }

  lemma EvictionAcceptedNext(o: Outside, pods: map<Key, Pod>, targets: seq<Key>, n: nat, p: Key)
    requires n + 1 == |targets|
    ensures EvictionAccepted(o, pods, targets, p) <==>
              || EvictionAccepted(o, pods, targets[..n], p)
              || (targets[n] == p && p in pods && Evictable(pods[p]) && o.evict(p) == Evicted
                  && NoHardFailure(o, pods, targets[..n]))
  {
    assert forall i :: 0 <= i <= n ==> targets[..n][..i] == targets[..i];
  }

  /** "Pods not owned by a workload controller are skipped" holds of a call exactly when no
      eviction of such a pod is accepted: nothing looks at the owner. */
  lemma UncontrolledSkippedIff(o: Outside, pods: map<Key, Pod>, targets: seq<Key>)
    ensures EvictAll(o, pods, targets).pods.Keys == pods.Keys
    ensures (forall p :: p in pods && !pods[p].controlled ==> EvictAll(o, pods, targets).pods[p] == pods[p]) <==>
              forall p :: p in pods && !pods[p].controlled ==> !EvictionAccepted(o, pods, targets, p)
  {
    EvictAllKeys(o, pods, targets);
    forall p | p in pods
      ensures EvictAll(o, pods, targets).pods[p] != pods[p] <==> EvictionAccepted(o, pods, targets, p)
    {
      EvictedIff(o, pods, targets, p);
    }
  }

  /** A running pod that mounts the claim and that nobody will recreate is evicted when the claim is
      reconciled. */
  lemma UncontrolledEvicted(o: Outside, c: Cluster, k: Key, p: Key)
    requires PathOf(o, c, k) == Evict && p.ns == k.ns
    requires o.podsListable && o.podsListed == [p] && o.evict(p) == Evicted
    ensures
      var pod := Pod([Some(k.name)], [], Running, false, false);
      Reconciled(o, c, map[p := pod], k) == (map[p := pod.(terminating := true)], RequeueAfter)
  {
    var pod := Pod([Some(k.name)], [], Running, false, false);
    OnlyPodEvicted(o, pod, k, p);
  }

  lemma OnlyPodEvicted(o: Outside, pod: Pod, k: Key, p: Key)
    requires p.ns == k.ns && Some(k.name) in pod.volumes && Evictable(pod) && o.evict(p) == Evicted
    ensures PodsUsing(map[p := pod], [p], k) == [p]
    ensures EvictAll(o, map[p := pod], [p]) == Evictions(map[p := pod.(terminating := true)], false, false)
  {
    assert [p][..0] == [];
    assert EvictAll(o, map[p := pod], []) == Evictions(map[p := pod], false, false);
  }

  /** An eviction call reports trouble exactly when some eviction is blocked or fails. */
  lemma {:induction false} EvictTroubleIff(o: Outside, pods: map<Key, Pod>, targets: seq<Key>)
    ensures
      var r := EvictAll(o, pods, targets);
      r.blocked || r.failed <==>
        exists p :: p in targets && p in pods && Evictable(pods[p]) && o.evict(p) in {TooManyRequests, EvictFails}
  {
    if targets != [] {
      var n := |targets| - 1;
      var last := targets[n];
      assert targets == targets[..n] + [last];
      EvictTroubleIff(o, pods, targets[..n]);
      EvictAllKeys(o, pods, targets[..n]);
      if last in pods { EvictAllAt(o, pods, targets[..n], last); }
    }
  }

  /** An ungating call fails exactly when the patch of some gated target does. */
  lemma {:induction false} UngateTroubleIff(o: Outside, pods: map<Key, Pod>, targets: seq<Key>)
    ensures UngateAll(o, pods, targets).failed <==>
              exists p :: p in targets && p in pods && HasGate(pods[p]) && !o.patched(p)
  {
    if targets != [] {
      var n := |targets| - 1;
      var last := targets[n];
      assert targets == targets[..n] + [last];
      UngateTroubleIff(o, pods, targets[..n]);
      UngateAllKeys(o, pods, targets[..n]);
      if last in pods { UngateAllAt(o, pods, targets[..n], last); }
    }
  }

  /** Ungating only removes the gate, on targets; without a failure no target keeps it. */
  lemma {:induction false} UngateAllAt(o: Outside, pods: map<Key, Pod>, targets: seq<Key>, p: Key)
    requires p in pods
    ensures
      var r := UngateAll(o, pods, targets);
      && r.pods.Keys == pods.Keys
      && (r.pods[p] == pods[p] || (p in targets && HasGate(pods[p]) && r.pods[p] == RemoveGate(pods[p])))
      && (!r.failed && p in targets ==> !HasGate(r.pods[p]))
  {
    if targets != [] {
      var n := |targets| - 1;
      assert targets == targets[..n] + [targets[n]];
      UngateAllAt(o, pods, targets[..n], p);
    }
  }

  /** The eviction of some running pod that uses the claim is blocked or fails. */
  ghost predicate EvictionTrouble(o: Outside, pods: map<Key, Pod>, k: Key) {
    exists p :: Uses(pods, p, k) && pods[p].phase == Running && !pods[p].terminating
                && o.evict(p) in {TooManyRequests, EvictFails}
  }

  /** The patch of some gated pod that uses the claim fails. */
  ghost predicate UngatingTrouble(o: Outside, pods: map<Key, Pod>, k: Key) {
    exists p :: Uses(pods, p, k) && HasGate(pods[p]) && !o.patched(p)
  }

  /** The resize fails with an error that asks for a detach, it is not waiting for a mount, and an
      object opts in. */
  ghost predicate DetachWanted(o: Outside, c: Cluster, k: Key) {
    && k in c.claims && IsTrue(c.claims[k], ControllerResizeError) && !IsTrue(c.claims[k], FileSystemResizePending)
    && GetCondition(c.claims[k].conditions, ControllerResizeError).value.message.offlineOnly && OptedIn(o, c, k)
  }

  /** When a call reports an error and is retried, when it is repeated after a while, and when it is
      done: every failed read, lookup, list, patch and eviction is an error, blocked evictions
      too; a successful eviction call is repeated; everything else is done. */
  lemma OutcomeExactly(o: Outside, c: Cluster, pods: map<Key, Pod>, k: Key)
    requires UniqueOwners(c, o.autoscaler) && Faithful(o, c, pods, k)
    ensures
      var outcome := Reconciled(o, c, pods, k).1;
      var erring := && k in c.claims && IsTrue(c.claims[k], ControllerResizeError)
                    && !IsTrue(c.claims[k], FileSystemResizePending);
      && (outcome == RequeueAfter <==>
            && o.readable(k) && o.ownersListable(k) && o.podsListable
            && DetachWanted(o, c, k) && !EvictionTrouble(o, pods, k))
      && (outcome == Errored <==>
            || !o.readable(k)
            || (k in c.claims && !erring && (!o.podsListable || UngatingTrouble(o, pods, k)))
            || (erring && (!o.ownersListable(k) || Malformed(o, c, k)))
            || (DetachWanted(o, c, k) && (!o.podsListable || EvictionTrouble(o, pods, k))))
  {
    Troubles(o, c, pods, k);
    PathExactly(o, c, k);
    if DetachWanted(o, c, k) { OptedInNotMalformed(o, c, k); }
  }

  /** The branch of a call, in terms of the claim and its owner. */
  lemma PathExactly(o: Outside, c: Cluster, k: Key)
    requires UniqueOwners(c, o.autoscaler) && IndexAnswer(c, o.autoscaler, k, o.ownersListed(k))
    ensures
      var path := PathOf(o, c, k);
      var erring := && k in c.claims && IsTrue(c.claims[k], ControllerResizeError)
                    && !IsTrue(c.claims[k], FileSystemResizePending);
      && (path == Evict <==> o.readable(k) && o.ownersListable(k) && DetachWanted(o, c, k))
      && (path == Ungate <==> o.readable(k) && k in c.claims && !erring)
      && (path in {ReadError, LookupError} <==>
            !o.readable(k) || (erring && (!o.ownersListable(k) || Malformed(o, c, k))))
  {
    if o.readable(k) && k in c.claims && Stuck(c.claims[k]) {
      StuckGivenUpIff(o, c, k);
      if o.ownersListable(k) { EvictIff(o, c, k); }
      if OptedIn(o, c, k) { OptedInNotMalformed(o, c, k); }
    }
  }

  lemma Troubles(o: Outside, c: Cluster, pods: map<Key, Pod>, k: Key)
    requires Faithful(o, c, pods, k)
    ensures
      var targets := PodsUsing(pods, o.podsListed, k);
      && (EvictAll(o, pods, targets).blocked || EvictAll(o, pods, targets).failed <==> EvictionTrouble(o, pods, k))
      && (UngateAll(o, pods, targets).failed <==> UngatingTrouble(o, pods, k))
  {
    var targets := PodsUsing(pods, o.podsListed, k);
    EvictTroubleIff(o, pods, targets);
    UngateTroubleIff(o, pods, targets);
    assert forall p :: p in targets <==> Uses(pods, p, k);
  }

  lemma OptedInNotMalformed(o: Outside, c: Cluster, k: Key)
    requires UniqueOwners(c, o.autoscaler) && OptedIn(o, c, k)
    ensures !Malformed(o, c, k)
  {
  }

  /** Reconciler over the pods of the cluster. */
  class Reconciler {
    var pods: map<Key, Pod>

    constructor (pods: map<Key, Pod>)
      ensures this.pods == pods
    {
      this.pods := pods;
    }

    method PodsUsingPVC(o: Outside, k: Key) returns (r: seq<Key>)
      ensures r == PodsUsing(pods, o.podsListed, k)
    {
      r := [];
      for i := 0 to |o.podsListed|
        invariant r == PodsUsing(pods, o.podsListed[..i], k)
      {
        var p := o.podsListed[i];
        assert o.podsListed[..i + 1][..i] == o.podsListed[..i];
        if p in pods && p.ns == k.ns {
          var found := false;
          var volumes := pods[p].volumes;
          for j := 0 to |volumes|
            invariant !found && Some(k.name) !in volumes[..j]
          {
            if volumes[j] == Some(k.name) {
              found := true;
              break;
            }
          }
          assert volumes[..|volumes|] == volumes;
          if found { r := r + [p]; }
        }
      }
      assert o.podsListed[..|o.podsListed|] == o.podsListed;
    }

    /** Evict the running pods; a blocked eviction does not stop the loop, any other failure
        does. */
    method EvictPods(o: Outside, targets: seq<Key>) returns (failed: bool)
      modifies this
      ensures pods == EvictAll(o, old(pods), targets).pods
      ensures failed <==> EvictAll(o, old(pods), targets).blocked || EvictAll(o, old(pods), targets).failed
    {
      var blocked := false;
      for i := 0 to |targets|
        invariant EvictAll(o, old(pods), targets[..i]) == Evictions(pods, blocked, false)
      {
        var p := targets[i];
        assert targets[..i + 1][..i] == targets[..i];
        if p !in pods || pods[p].terminating { continue; }
        if pods[p].phase != Running { continue; }
        match o.evict(p)
        case Evicted => pods := pods[p := pods[p].(terminating := true)];
        case AlreadyGone =>
        case TooManyRequests => blocked := true;
        case EvictFails =>
          EvictStops(o, old(pods), targets, i);
          return true;
      }
      assert targets[..|targets|] == targets;
      failed := blocked;
    }

    method RemoveSchedulingGates(o: Outside, targets: seq<Key>) returns (failed: bool)
      modifies this
      ensures pods == UngateAll(o, old(pods), targets).pods
      ensures failed == UngateAll(o, old(pods), targets).failed
    {
      for i := 0 to |targets|
        invariant UngateAll(o, old(pods), targets[..i]) == Ungated(pods, false)
      {
        var p := targets[i];
        assert targets[..i + 1][..i] == targets[..i];
        if p !in pods || !HasGate(pods[p]) { continue; }
        if !o.patched(p) {
          UngateStops(o, old(pods), targets, i);
          return true;
        }
        pods := pods[p := RemoveGate(pods[p])];
      }
      assert targets[..|targets|] == targets;
      failed := false;
    }

    method Reconcile(o: Outside, c: Cluster, k: Key) returns (outcome: Outcome)
      modifies this
      ensures (pods, outcome) == Reconciled(o, c, old(pods), k)
    {
      if !o.readable(k) { return Errored; }
      if k !in c.claims { return Done; }
      if IsTrue(c.claims[k], FileSystemResizePending) || !IsTrue(c.claims[k], ControllerResizeError) {
        if !o.podsListable { return Errored; }
        var targets := PodsUsingPVC(o, k);
        var failed := RemoveSchedulingGates(o, targets);
        return if failed then Errored else Done;
      }
      var owner := OwnerOf(o, c, k);
      if owner.OwnerError? { return Errored; }
      if owner.Unowned? || owner.policy.None? { return Done; }
      if !OptsIn(c, owner) { return Done; }
      if !OfflineResizeRequired(c.claims[k]) { return Done; }
      if !o.podsListable { return Errored; }
      var targets := PodsUsingPVC(o, k);
      var failed := EvictPods(o, targets);
      outcome := if failed then Errored else RequeueAfter;
    }
  }

  lemma {:induction false} EvictStops(o: Outside, pods: map<Key, Pod>, targets: seq<Key>, i: nat)
    requires i < |targets| && EvictAll(o, pods, targets[..i + 1]).failed
    ensures EvictAll(o, pods, targets) == EvictAll(o, pods, targets[..i + 1])
    decreases |targets| - i
  {
    if i + 1 == |targets| {
      assert targets[..i + 1] == targets;
    } else {
      assert targets[..i + 2][..i + 1] == targets[..i + 1];
      EvictStops(o, pods, targets, i + 1);
    }
  }

  lemma {:induction false} UngateStops(o: Outside, pods: map<Key, Pod>, targets: seq<Key>, i: nat)
    requires i < |targets| && UngateAll(o, pods, targets[..i + 1]).failed
    ensures UngateAll(o, pods, targets) == UngateAll(o, pods, targets[..i + 1])
    decreases |targets| - i
  {
    if i + 1 == |targets| {
      assert targets[..i + 1] == targets;
    } else {
      assert targets[..i + 2][..i + 1] == targets[..i + 1];
      UngateStops(o, pods, targets, i + 1);
    }
  }

  // ----- the webhook -----

  /** A claim that makes the webhook gate a new pod. */
  predicate GatesOn(o: Outside, c: Cluster, k: Key) {
    && o.readable(k) && k in c.claims
    && IsTrue(c.claims[k], ControllerResizeError) && !IsTrue(c.claims[k], FileSystemResizePending)
    && OfflineResizeRequired(c.claims[k])
    && OptsIn(c, OwnerOf(o, c, k))
  }

  predicate ShouldGate(o: Outside, c: Cluster, ns: string, volumes: seq<Option<string>>) {
    exists i :: 0 <= i < |volumes| && volumes[i].Some? && GatesOn(o, c, Key(ns, volumes[i].value))
  }

  /** The webhook: search the volumes for a stuck claim, and gate the pod if there is one. */
  method Handle(o: Outside, c: Cluster, ns: string, pod: Pod) returns (r: Pod)
    ensures r == if ShouldGate(o, c, ns, pod.volumes) then AddGate(pod) else pod
  {
    r := pod;
    for i := 0 to |pod.volumes|
      invariant r == pod
      invariant forall j :: 0 <= j < i && pod.volumes[j].Some? ==> !GatesOn(o, c, Key(ns, pod.volumes[j].value))
    {
      if pod.volumes[i].None? { continue; }
      var k := Key(ns, pod.volumes[i].value);
      if !o.readable(k) || k !in c.claims { continue; }
      if !IsTrue(c.claims[k], ControllerResizeError) || IsTrue(c.claims[k], FileSystemResizePending) { continue; }
      if !OfflineResizeRequired(c.claims[k]) { continue; }
      var owner := OwnerOf(o, c, k);
      if owner.OwnerError? { continue; }
      if owner.Owned? && OptsIn(c, owner) {
        return AddGate(pod);
      }
    }
  }

  /** Webhook and reconciler agree: a pod is gated at creation exactly when reconciling one of
      its claims, in the same snapshot, would take the eviction path. */
  lemma WebhookAgreesWithReconciler(o: Outside, c: Cluster, ns: string, volumes: seq<Option<string>>)
    ensures ShouldGate(o, c, ns, volumes) <==>
              exists name :: Some(name) in volumes && PathOf(o, c, Key(ns, name)) == Evict
    ensures forall k :: GatesOn(o, c, k) ==> PathOf(o, c, k) != Ungate
  {
  }

  // ----- event filters and mappers -----

  /** Claim events that reach the queue. */
  predicate ClaimEventPasses(c: Claim) {
    c.prev != NoAnnotation && (IsTrue(c, ControllerResizeError) || IsTrue(c, FileSystemResizePending))
  }

  function RecNames(recs: seq<Rec>): (r: seq<string>)
    ensures |r| == |recs| && forall i :: 0 <= i < |recs| ==> r[i] == recs[i].name
  {
    seq(|recs|, i requires 0 <= i < |recs| => recs[i].name)
  }

  /** Update events of autoscaler objects that reach the queue. */
  predicate PvcaUpdatePasses(before: Pvca, after: Pvca) {
    || Sort(RecNames(before.recs), Self) != Sort(RecNames(after.recs), Self)
    || before.rules != after.rules
  }

  /** The order of the recommendations does not matter to the filter: an update passes exactly
      when the names differ as multisets or the policies differ. */
  lemma PvcaUpdatePassesIff(before: Pvca, after: Pvca)
    ensures PvcaUpdatePasses(before, after) <==>
              multiset(RecNames(before.recs)) != multiset(RecNames(after.recs)) || before.rules != after.rules
  {
    var a, b := RecNames(before.recs), RecNames(after.recs);
    if multiset(a) == multiset(b) {
      SortOfPermutation(a, b, Self);
    } else {
      assert multiset(Sort(a, Self)) == multiset(a) && multiset(Sort(b, Self)) == multiset(b);
    }
  }

  method MapPVCAToPVCs(ns: string, pvca: Pvca) returns (r: seq<Key>)
    ensures |r| == |pvca.recs| && forall j :: 0 <= j < |r| ==> r[j] == Key(ns, pvca.recs[j].name)
    ensures forall k :: k in r <==> k in PvcaRequests(ns, pvca)
  {
    r := [];
    for i := 0 to |pvca.recs|
      invariant |r| == i && forall j :: 0 <= j < i ==> r[j] == Key(ns, pvca.recs[j].name)
    {
      r := r + [Key(ns, pvca.recs[i].name)];
    }
    forall k ensures k in r <==> k in PvcaRequests(ns, pvca) {
      if k in r {
        var j :| 0 <= j < |r| && r[j] == k;
        assert pvca.recs[j] in pvca.recs;
      }
      if k in PvcaRequests(ns, pvca) {
        var rec :| rec in pvca.recs && k == Key(ns, rec.name);
        var j :| 0 <= j < |pvca.recs| && pvca.recs[j] == rec;
        assert r[j] == k;
      }
    }
  }

  function PvcaRequests(ns: string, pvca: Pvca): set<Key> { set r | r in pvca.recs :: Key(ns, r.name) }

  method MapPodToPVCs(ns: string, pod: Pod) returns (r: seq<Key>)
    ensures forall k :: k in r <==> k in PodRequests(ns, pod)
  {
    r := [];
    for i := 0 to |pod.volumes|
      invariant forall k :: k in r <==> k.ns == ns && Some(k.name) in pod.volumes[..i]
    {
      assert pod.volumes[..i + 1] == pod.volumes[..i] + [pod.volumes[i]];
      if pod.volumes[i].None? { continue; }
      r := r + [Key(ns, pod.volumes[i].value)];
    }
    assert pod.volumes[..|pod.volumes|] == pod.volumes;
    forall k ensures k in PodRequests(ns, pod) <==> k.ns == ns && Some(k.name) in pod.volumes {
      PodRequestsAre(ns, pod, k);
    }
  }

  function PodRequests(ns: string, pod: Pod): set<Key> {
    set v | v in pod.volumes && v.Some? :: Key(ns, v.value)
  }

  lemma PodRequestsAre(ns: string, pod: Pod, k: Key)
    ensures k in PodRequests(ns, pod) <==> k.ns == ns && Some(k.name) in pod.volumes
  {
  }
}
