/** A whole tick, fetch phase included, and the assumption other components build on: a claim is
    listed by at most one autoscaler object. */
module Ownership {
  import opened Api
  import opened ClaimLogic
  import opened Conditions
  import opened Recommendations
  import opened Visiting
  import opened Tick

  // ----- the fetch phase -----

  function FetchReason(f: Fetch): ReasonCode { if f.NothingMatched? then NoPVCsMatched else PVCFetchError }

  /** The status of an object whose claims could not be fetched: no entries, and an existing
      Resizing condition turns Unknown. */
  function Cleared(w: World, key: Key, pvca: Pvca): Pvca {
    var reason := FetchReason(w.fetch(key));
    var resizing := if Has(pvca.conditions, ResizingType)
                    then Condition(ResizingType, Unknown, reason, w.text(key, ResizingUnknown))
                    else Condition(ResizingType, Unknown, NoReason, "");
    var failing := Condition(RecommendationAvailable, False, reason, w.text(key, FetchProblem));
    pvca.(conditions := Published(Published(pvca.conditions, resizing), failing), recs := [])
  }

  function FetchOne(w: World, pvcas: map<Key, Pvca>, key: Key): map<Key, Pvca>
    requires key in pvcas
  {
    if w.fetch(key).Fetched? || !w.statusSaved(key) then pvcas
    else pvcas[key := Cleared(w, key, pvcas[key])]
  }

  function FetchPhase(w: World, pvcas: map<Key, Pvca>, list: seq<Key>): (r: map<Key, Pvca>)
    requires forall k :: k in list ==> k in pvcas
    ensures r.Keys == pvcas.Keys
  {
    if list == [] then pvcas
    else FetchOne(w, FetchPhase(w, pvcas, list[..|list| - 1]), list[|list| - 1])
  }

  lemma {:induction false} FetchPhaseAt(w: World, pvcas: map<Key, Pvca>, list: seq<Key>, p: Key)
    requires (forall k :: k in list ==> k in pvcas) && p in pvcas && NoDup(list)
    ensures FetchPhase(w, pvcas, list)[p] == if p in list then FetchOne(w, pvcas, p)[p] else pvcas[p]
  {
    if list != [] {
      NoDupSplit(list);
      FetchPhaseAt(w, pvcas, list[..|list| - 1], p);
    }
  }

  /** After a failed fetch the object lists nothing, reports the failure, and has a Resizing
      condition exactly when it had one before; that one is Unknown, with the failure as its
      reason. A target without claims is told apart from one that cannot be read. */
  lemma ClearedStatus(w: World, key: Key, pvca: Pvca)
    requires w.text(key, ResizingUnknown) != "" && w.text(key, FetchProblem) != ""
    ensures
      var r := Cleared(w, key, pvca);
      var reason := if w.fetch(key) == NothingMatched then NoPVCsMatched else PVCFetchError;
      && r.recs == []
      && (Has(r.conditions, ResizingType) <==> Has(pvca.conditions, ResizingType))
      && (Has(pvca.conditions, ResizingType) ==>
            Condition(ResizingType, Unknown, reason, w.text(key, ResizingUnknown)) in r.conditions)
      && Condition(RecommendationAvailable, False, reason, w.text(key, FetchProblem)) in r.conditions
  {
    var resizing := Condition(ResizingType, Unknown, FetchReason(w.fetch(key)), w.text(key, ResizingUnknown));
    var failing := Condition(RecommendationAvailable, False, FetchReason(w.fetch(key)), w.text(key, FetchProblem));
    PutHas(pvca.conditions, resizing);
    PutHas(Put(pvca.conditions, resizing), failing);
    PutHas(Removed(pvca.conditions, ResizingType), failing);
    PutKeeps(Put(pvca.conditions, resizing), failing, resizing);
  }

  // ----- the tick -----

  /** The tick of the runner with the given name: its objects in the order they were listed, the
      ownership map computed from the fetch results, and an order of the fetched ones. */
  ghost predicate Plan(w: World, s: Cluster, name: string, list: seq<Key>, owners: Owners, order: seq<Key>) {
    && NoDup(list) && (forall k :: k in list <==> k in s.pvcas && s.pvcas[k].autoscaler == name)
    && Exact(w, list, owners)
    && NoDup(order) && (forall k :: k in order <==> k in list && w.fetch(k).Fetched?)
    && (forall k :: k in order ==> NoDup(w.fetch(k).names))
  }

  ghost function TickAll(w: World, s: Cluster, list: seq<Key>, owners: Owners, order: seq<Key>): Cluster
    requires (forall k :: k in list ==> k in s.pvcas) && Reconcilable(w, s, order)
  {
    InOrder(w, owners, s.(pvcas := FetchPhase(w, s.pvcas, list)), order)
  }

  lemma PlanDisjoint(w: World, s: Cluster, name: string, list: seq<Key>, owners: Owners, order: seq<Key>)
    requires Plan(w, s, name, list, owners, order)
    ensures DisjointOwners(w, owners, order)
  {
    forall p, q, k | p in order && q in order && Owns(w, owners, p, k) && Owns(w, owners, q, k) ensures p == q {
      OneOwner(w, list, owners, p, q, k);
    }
  }

  /** A tick has one outcome whatever order the fetched objects are taken in, and it patches each
      claim at most once. */
  lemma TickIsDeterminate(
    w: World, s: Cluster, name: string, list: seq<Key>, owners: Owners, a: seq<Key>, b: seq<Key>, k: Key)
    requires Plan(w, s, name, list, owners, a) && Plan(w, s, name, list, owners, b)
    ensures TickAll(w, s, list, owners, a) == TickAll(w, s, list, owners, b)
    ensures s.writes[k] <= TickAll(w, s, list, owners, a).writes[k] <= s.writes[k] + 1
  {
    var f := s.(pvcas := FetchPhase(w, s.pvcas, list));
    PlanDisjoint(w, s, name, list, owners, a);
    TickOrderIrrelevant(w, owners, f, a, b);
    OneWriterPerTick(w, owners, f, a, k);
  }

  /** The tick records an entry for the claim. */
  predicate Recorded(w: World, owners: Owners, s: Cluster, p: Key, n: string)
    requires p in s.pvcas && w.fetch(p).Fetched?
  {
    var pvca := s.pvcas[p];
    var kept := Filtered(pvca.recs, Survives(w, pvca.rules, w.fetch(p).names));
    CtxOf(w, p.ns, pvca.rules, owners).effect(n, Get(s.claims, Key(p.ns, n)), GetOrCreate(kept, n)).entry.Some?
  }

  /** The object takes the claim over in this tick: it alone fetches it and records an entry. */
  predicate Takes(w: World, owners: Owners, s: Cluster, p: Key, n: string)
    requires p in s.pvcas
  {
    Fetches(w, p, Key(p.ns, n)) && Recorded(w, owners, s, p, n)
  }

  predicate HasPolicy(w: World, s: Cluster, p: Key, n: string)
    requires p in s.pvcas
  {
    GetVolumePolicy(w.glob, n, s.pvcas[p].rules).Matched?
  }

  /** Entries of this autoscaler's objects have distinct names. */
  ghost predicate AllDistinct(s: Cluster, name: string) {
    forall p :: p in s.pvcas && s.pvcas[p].autoscaler == name ==> Distinct(s.pvcas[p].recs)
  }

  /** What an object lists after a tick. */
  lemma ListsAfterTick(
    w: World, s: Cluster, name: string, list: seq<Key>, owners: Owners, order: seq<Key>, p: Key, n: string)
    requires Plan(w, s, name, list, owners, order) && p in s.pvcas
    requires s.pvcas[p].autoscaler == name && Distinct(s.pvcas[p].recs)
    ensures
      var t := TickAll(w, s, list, owners, order);
      && p in t.pvcas
      && Distinct(t.pvcas[p].recs)
      && (Lists(t.pvcas[p].recs, n) <==>
            if !w.statusSaved(p) then Lists(s.pvcas[p].recs, n)
            else
              && Fetches(w, p, Key(p.ns, n)) && HasPolicy(w, s, p, n)
              && (Lists(s.pvcas[p].recs, n) || Recorded(w, owners, s, p, n)))
  {
    var f := s.(pvcas := FetchPhase(w, s.pvcas, list));
    FetchPhaseAt(w, s.pvcas, list, p);
    if p in order {
      PlanDisjoint(w, s, name, list, owners, order);
      AfterTick(w, owners, f, order, p, p);
      PublishedListIntegrity(w, owners, p, s.pvcas[p], s.claims, n);
    } else {
      UntouchedBefore(w, owners, f, order, p);
    }
  }

  /** A tick changes nothing but recommendations and conditions of an object. */
  lemma TickKeepsSpecs(w: World, s: Cluster, name: string, list: seq<Key>, owners: Owners, order: seq<Key>, p: Key)
    requires Plan(w, s, name, list, owners, order) && p in s.pvcas
    ensures
      var t := TickAll(w, s, list, owners, order).pvcas;
      && p in t
      && t[p] == s.pvcas[p].(recs := t[p].recs, conditions := t[p].conditions)
      && (s.pvcas[p].autoscaler != name ==> t[p] == s.pvcas[p])
  {
    var f := s.(pvcas := FetchPhase(w, s.pvcas, list));
    FetchPhaseAt(w, s.pvcas, list, p);
    if p in order {
      PlanDisjoint(w, s, name, list, owners, order);
      AfterTick(w, owners, f, order, p, p);
    } else {
      UntouchedBefore(w, owners, f, order, p);
    }
  }

  /** A recorded claim is fetched by no other object of the list. */
  lemma RecordedAlone(
    w: World, s: Cluster, name: string, list: seq<Key>, owners: Owners, order: seq<Key>, p: Key, q: Key, n: string)
    requires Plan(w, s, name, list, owners, order) && p in list && q in list && p != q && p.ns == q.ns
    requires Fetches(w, p, Key(p.ns, n)) && Recorded(w, owners, s, p, n)
    ensures !Fetches(w, q, Key(q.ns, n))
  {
    CtxSound(w, p.ns, s.pvcas[p].rules, owners);
    if Fetches(w, q, Key(q.ns, n)) {
      OneOwner(w, list, owners, p, q, Key(p.ns, n));
    }
  }

  // ----- at most one owner -----

  /** No claim is listed by two objects of the same autoscaler. */
  ghost predicate UniqueOwners(s: Cluster, name: string) {
    forall p, q, n ::
      (&& p in s.pvcas && q in s.pvcas && p != q && p.ns == q.ns
       && s.pvcas[p].autoscaler == name && s.pvcas[q].autoscaler == name
       && Lists(s.pvcas[p].recs, n)) ==> !Lists(s.pvcas[q].recs, n)
  }

  /** An object whose status patch gets lost still lists a claim that another one takes over. */
  ghost predicate LostHandover(w: World, owners: Owners, s: Cluster, list: seq<Key>) {
    exists p, q, n ::
      && p in list && q in list && p in s.pvcas && q in s.pvcas && p != q && p.ns == q.ns
      && w.statusSaved(p) && !w.statusSaved(q)
      && Lists(s.pvcas[q].recs, n) && Takes(w, owners, s, p, n)
  }

  /** A tick keeps ownership unique if and only if no handover is lost. */
  lemma TickKeepsOwnersIff(w: World, s: Cluster, name: string, list: seq<Key>, owners: Owners, order: seq<Key>)
    requires Plan(w, s, name, list, owners, order) && AllDistinct(s, name) && UniqueOwners(s, name)
    ensures UniqueOwners(TickAll(w, s, list, owners, order), name) <==> !LostHandover(w, owners, s, list)
    ensures AllDistinct(TickAll(w, s, list, owners, order), name)
  {
    var t := TickAll(w, s, list, owners, order);
    forall p | p in t.pvcas ensures t.pvcas[p].autoscaler == s.pvcas[p].autoscaler {
      TickKeepsSpecs(w, s, name, list, owners, order, p);
    }
    forall p | p in t.pvcas && t.pvcas[p].autoscaler == name ensures Distinct(t.pvcas[p].recs) {
      ListsAfterTick(w, s, name, list, owners, order, p, "");
    }
    if !LostHandover(w, owners, s, list) {
      forall p, q, n |
        && p in t.pvcas && q in t.pvcas && p != q && p.ns == q.ns
        && t.pvcas[p].autoscaler == name && t.pvcas[q].autoscaler == name && Lists(t.pvcas[p].recs, n)
        ensures !Lists(t.pvcas[q].recs, n)
      {
        NeverBoth(w, s, name, list, owners, order, p, q, n);
      }
    } else {
      LostHandoverBreaks(w, s, name, list, owners, order);
    }
  }

  lemma LostHandoverBreaks(w: World, s: Cluster, name: string, list: seq<Key>, owners: Owners, order: seq<Key>)
    requires Plan(w, s, name, list, owners, order) && AllDistinct(s, name) && LostHandover(w, owners, s, list)
    ensures !UniqueOwners(TickAll(w, s, list, owners, order), name)
  {
    var p, q, n :|
      && p in list && q in list && p in s.pvcas && q in s.pvcas && p != q && p.ns == q.ns
      && w.statusSaved(p) && !w.statusSaved(q)
      && Lists(s.pvcas[q].recs, n) && Takes(w, owners, s, p, n);
    ListsAfterTick(w, s, name, list, owners, order, p, n);
    ListsAfterTick(w, s, name, list, owners, order, q, n);
    TickKeepsSpecs(w, s, name, list, owners, order, p);
    TickKeepsSpecs(w, s, name, list, owners, order, q);
    CtxSound(w, p.ns, s.pvcas[p].rules, owners);
  }

  // An object p with an empty list alone fetches the full claim x, which q still lists as resized
  // at time 0, under a cooldown of 600; the status patch of q fails.
  const OLD_OWNER: Key := Key("n", "q")
  const NEW_OWNER: Key := Key("n", "p")
  const MOVED: Key := Key("n", "x")
  const MOVED_CLAIM: Claim := Claim(GI, GI, NoAnnotation, [], false, Class(true), true, true)
  const HANDOVER_POLICY: Policy := Policy(10 * GI, 80, 10, GI, Some(600), InPlace)

  function LosingWorld(judged: Key -> int, text: (Key, Saying) -> string): World {
    World((a, b) => Some(true), k => if k == NEW_OWNER then Fetched(["x"]) else NothingMatched, k => true,
          map[MOVED := VolumeInfo(0, GI, 1, 1)], true, k => Applied, judged, judged, k => k == NEW_OWNER, text)
  }

  function LosingCluster(): Cluster {
    var rules := [Rule("*", HANDOVER_POLICY)];
    var stamped := FreshRec("x").(lastResize := Some(0));
    var holder, taker := Pvca("", false, rules, [stamped], []), Pvca("", false, rules, [], []);
    Cluster(map[MOVED := MOVED_CLAIM], map[NEW_OWNER := taker, OLD_OWNER := holder], multiset{})
  }

  /** A handover that is lost: from a cluster in which every claim has one owner, a legal tick
      leads to one in which both objects list x. */
  lemma LostHandoverExample(judged: Key -> int, text: (Key, Saying) -> string)
    ensures
      var w, s := LosingWorld(judged, text), LosingCluster();
      var list, owners := [NEW_OWNER, OLD_OWNER], map[MOVED := [NEW_OWNER]];
      && Plan(w, s, "", list, owners, [NEW_OWNER])
      && AllDistinct(s, "") && UniqueOwners(s, "")
      && !UniqueOwners(TickAll(w, s, list, owners, [NEW_OWNER]), "")
  {
    var w, s := LosingWorld(judged, text), LosingCluster();
    var list, owners := [NEW_OWNER, OLD_OWNER], map[MOVED := [NEW_OWNER]];
    LosingStart(s);
    LosingPlan(w, s, list, owners);
    LosingTakes(w, s, owners);
    LostHandoverBreaks(w, s, "", list, owners, [NEW_OWNER]);
  }

  lemma LosingStart(s: Cluster)
    requires s == LosingCluster()
    ensures AllDistinct(s, "") && UniqueOwners(s, "") && Lists(s.pvcas[OLD_OWNER].recs, "x")
  {
    assert NEW_OWNER.name[0] != OLD_OWNER.name[0];
    forall n ensures !Lists(s.pvcas[NEW_OWNER].recs, n) {}
  }

  lemma LosingPlan(w: World, s: Cluster, list: seq<Key>, owners: Owners)
    requires w == LosingWorld(w.judgedAt, w.text) && s == LosingCluster()
    requires list == [NEW_OWNER, OLD_OWNER] && owners == map[MOVED := [NEW_OWNER]]
    ensures Plan(w, s, "", list, owners, [NEW_OWNER])
  {
    assert NEW_OWNER.name[0] != OLD_OWNER.name[0];
    forall k ensures OwnersAt(owners, k) == OwnersOf(w, list, k) {
      assert list[..1] == [NEW_OWNER] && list[..1][..0] == [];
      assert ["x"][..0] == [];
      assert Claimed([], NEW_OWNER, ["x"], k) == if k == MOVED then [NEW_OWNER] else [];
      assert OwnersOf(w, list[..1], k) == Claimed([], NEW_OWNER, ["x"], k);
    }
  }

  lemma LosingTakes(w: World, s: Cluster, owners: Owners)
    requires w == LosingWorld(w.judgedAt, w.text) && s == LosingCluster() && owners == map[MOVED := [NEW_OWNER]]
    ensures Takes(w, owners, s, NEW_OWNER, "x")
  {
    var rules := [Rule("*", HANDOVER_POLICY)];
    assert GetVolumePolicy(w.glob, "x", rules) == Matched(HANDOVER_POLICY);
    assert Filtered([], Survives(w, rules, ["x"])) == [] && GetOrCreate([], "x") == FreshRec("x");
    assert OwnersAt(owners, MOVED) == [NEW_OWNER];
    var info := Some(VolumeInfo(0, GI, 1, 1));
    assert Judge(true, HANDOVER_POLICY, MOVED_CLAIM, FreshRec("x"), info, w.judgedAt(MOVED)).Accepted?;
    assert EffectOn(w, rules, [NEW_OWNER], MOVED, Some(MOVED_CLAIM), FreshRec("x")).entry.Some?;
    assert CtxOf(w, "n", rules, owners).effect("x", Some(MOVED_CLAIM), FreshRec("x")).entry.Some?;
    assert Fetches(w, NEW_OWNER, MOVED) && Recorded(w, owners, s, NEW_OWNER, "x");
  }

  lemma NeverBoth(
    w: World, s: Cluster, name: string, list: seq<Key>, owners: Owners, order: seq<Key>, p: Key, q: Key, n: string)
    requires Plan(w, s, name, list, owners, order) && AllDistinct(s, name)
    requires UniqueOwners(s, name) && !LostHandover(w, owners, s, list)
    requires p in s.pvcas && q in s.pvcas && p != q && p.ns == q.ns
    requires s.pvcas[p].autoscaler == name && s.pvcas[q].autoscaler == name
    ensures
      var t := TickAll(w, s, list, owners, order);
      p in t.pvcas && q in t.pvcas && !(Lists(t.pvcas[p].recs, n) && Lists(t.pvcas[q].recs, n))
  {
    ListsAfterTick(w, s, name, list, owners, order, p, n);
    ListsAfterTick(w, s, name, list, owners, order, q, n);
    if Fetches(w, p, Key(p.ns, n)) && Recorded(w, owners, s, p, n) {
      RecordedAlone(w, s, name, list, owners, order, p, q, n);
      assert Takes(w, owners, s, p, n);
    }
    if Fetches(w, q, Key(q.ns, n)) && Recorded(w, owners, s, q, n) {
      RecordedAlone(w, s, name, list, owners, order, q, p, n);
      assert Takes(w, owners, s, q, n);
    }
  }

  // ----- over runs -----

  /** A tick of this autoscaler, or anything else that happens in between. */
  datatype Change =
    | Ticked(w: World, list: seq<Key>, owners: Owners, order: seq<Key>)
    | Edited(after: Cluster)

  ghost predicate Legal(s: Cluster, name: string, c: Change) {
    match c
    case Ticked(w, list, owners, order) => Plan(w, s, name, list, owners, order)
    case Edited(_) => true
  }

  /** Ticks lose no handover. In between, anything may happen to claims and to the objects of
      other autoscalers, and objects of this one may be deleted, retargeted and given other
      policies; objects that are created or come over from another autoscaler have no entries. */
  ghost predicate Orderly(s: Cluster, name: string, c: Change) {
    match c
    case Ticked(w, list, owners, _) => !LostHandover(w, owners, s, list)
    case Edited(t) =>
      forall p :: p in t.pvcas && t.pvcas[p].autoscaler == name ==>
        || (p in s.pvcas && s.pvcas[p].autoscaler == name && t.pvcas[p].recs == s.pvcas[p].recs)
        || t.pvcas[p].recs == []
  }

  ghost function After(s: Cluster, name: string, c: Change): Cluster
    requires Legal(s, name, c)
  {
    match c
    case Ticked(w, list, owners, order) => TickAll(w, s, list, owners, order)
    case Edited(t) => t
  }

  ghost predicate Follows(states: seq<Cluster>, changes: seq<Change>, name: string, i: nat)
    requires i < |changes| < |states|
  {
    Legal(states[i], name, changes[i]) && states[i + 1] == After(states[i], name, changes[i])
  }

  /** The states of a run follow each other by legal changes. */
  ghost predicate IsRun(states: seq<Cluster>, changes: seq<Change>, name: string) {
    |states| == |changes| + 1 && forall i :: 0 <= i < |changes| ==> Follows(states, changes, name, i)
  }

  predicate Grew(s: Cluster, t: Cluster, k: Key) {
    k in s.claims && k in t.claims && t.claims[k].spec > s.claims[k].spec
  }

  /** Change m is a tick that raises the request of the claim. */
  ghost predicate GrowthAt(states: seq<Cluster>, changes: seq<Change>, k: Key, m: nat)
    requires |states| == |changes| + 1 && m < |changes|
  {
    changes[m].Ticked? && Grew(states[m], states[m + 1], k)
  }

  lemma ChangeKeepsOwners(s: Cluster, name: string, c: Change)
    requires Legal(s, name, c) && Orderly(s, name, c) && AllDistinct(s, name) && UniqueOwners(s, name)
    ensures AllDistinct(After(s, name, c), name) && UniqueOwners(After(s, name, c), name)
  {
    match c
    case Ticked(w, list, owners, order) =>
      TickKeepsOwnersIff(w, s, name, list, owners, order);
    case Edited(t) =>
      forall p, q, n |
        && p in t.pvcas && q in t.pvcas && p != q && p.ns == q.ns
        && t.pvcas[p].autoscaler == name && t.pvcas[q].autoscaler == name && Lists(t.pvcas[p].recs, n)
        ensures !Lists(t.pvcas[q].recs, n)
      {
      }
  }

  /** Ownership, once unique, stays unique through every run of orderly changes. */
  lemma {:induction false} OwnersUniqueForever(states: seq<Cluster>, changes: seq<Change>, name: string, i: nat)
    requires IsRun(states, changes, name) && i < |states|
    requires AllDistinct(states[0], name) && UniqueOwners(states[0], name)
    requires forall j :: 0 <= j < |changes| ==> Orderly(states[j], name, changes[j])
    ensures AllDistinct(states[i], name) && UniqueOwners(states[i], name)
  {
    if i > 0 {
      OwnersUniqueForever(states, changes, name, i - 1);
      assert Follows(states, changes, name, i - 1) && Orderly(states[i - 1], name, changes[i - 1]);
      ChangeKeepsOwners(states[i - 1], name, changes[i - 1]);
    }
  }

  // ----- looking up the owner -----

  datatype Owner = Unowned | OwnerError | Owned(pvca: Key, policy: Option<Policy>)

  /** The first of the listed objects, with the policy it applies to the claim. */
  function FindOwner(glob: Glob, s: Cluster, listing: seq<Key>, k: Key): Owner
    requires forall p :: p in listing ==> p in s.pvcas
  {
    if listing == [] then Unowned
    else match GetVolumePolicy(glob, k.name, s.pvcas[listing[0]].rules)
      case BadPattern => OwnerError
      case NoPolicy => Owned(listing[0], None)
      case Matched(policy) => Owned(listing[0], Some(policy))
  }

  /** An answer of the index: the objects of this autoscaler, in the claim's namespace, that
      list the claim, in some order. */
  ghost predicate IndexAnswer(s: Cluster, name: string, k: Key, listing: seq<Key>) {
    && NoDup(listing)
    && forall p :: p in listing <==>
         p in s.pvcas && p.ns == k.ns && s.pvcas[p].autoscaler == name && Lists(s.pvcas[p].recs, k.name)
  }

  /** With unique owners the lookup finds at most one object and does not depend on the order of
      the answer. */
  lemma OwnerIsDeterminate(glob: Glob, s: Cluster, name: string, k: Key, a: seq<Key>, b: seq<Key>)
    requires UniqueOwners(s, name) && IndexAnswer(s, name, k, a) && IndexAnswer(s, name, k, b)
    ensures |a| <= 1 && FindOwner(glob, s, a, k) == FindOwner(glob, s, b, k)
  {
    assert |a| > 1 ==> a[0] in a && a[1] in a && a[0] != a[1];
    assert |a| > 0 ==> a[0] in b;
    assert |b| > 0 ==> b[0] in a;
  }
}
