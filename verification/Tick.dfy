/** One tick over all autoscaler objects: who owns which claim, what each object does to its
    claims, and what it publishes. */
module Tick {
  import opened Api
  import opened ClaimLogic
  import opened Conditions
  import opened Ordering
  import opened Recommendations
  import opened Visiting

  /** A PersistentVolumeClaimAutoscaler. */
  datatype Pvca = Pvca(
    autoscaler: string,
    targetsClaim: bool,
    rules: seq<Rule>,
    recs: seq<Rec>,
    conditions: seq<Condition>)

  /** The objects the tick works on. `writes` counts the successful patches per claim. */
  datatype Cluster = Cluster(claims: map<Key, Claim>, pvcas: map<Key, Pvca>, writes: multiset<Key>)

  /** The claims a target resolves to, or the two kinds of failure. */
  datatype Fetch = Fetched(names: seq<string>) | NothingMatched | FetchFailed

  /** The reverse map of a tick: for each claim the objects that fetched it. */
  type Owners = map<Key, seq<Key>>

  datatype Patch = Applied | Conflict | Refused

  /** What a published condition says about a claim or an autoscaler object. */
  datatype Saying =
    | AboutNote(note: Note)
    | WasReduced
    | ReduceRefused
    | WasGrown(due: Reason)
    | GrowRefused
    | IsContested(owners: seq<Key>)
    | IsUnreadable
    | PatternInvalid
    | IsSkipped(cause: Cause)
    | FetchProblem
    | ResizingUnknown

  /** Everything a tick learns from outside: lookups, metrics, clocks, the fate of its writes,
      glob matching (None for a malformed pattern) and the wording of messages. */
  datatype World = World(
    glob: Glob,
    fetch: Key -> Fetch,
    readable: Key -> bool,
    metrics: map<Key, VolumeInfo>,
    recovery: bool,
    patch: Key -> Patch,
    judgedAt: Key -> int,
    stampedAt: Key -> int,
    statusSaved: Key -> bool,
    text: (Key, Saying) -> string)

  // ----- policies -----

  datatype PolicyLookup = NoPolicy | BadPattern | Matched(policy: Policy)

  /** The first rule whose pattern matches; a malformed pattern met before that is an error. */
  function GetVolumePolicy(glob: Glob, name: string, rules: seq<Rule>): PolicyLookup {
    if rules == [] then NoPolicy
    else match glob(rules[0].pattern, name)
      case None => BadPattern
      case Some(true) => Matched(rules[0].policy)
      case Some(false) => GetVolumePolicy(glob, name, rules[1..])
  }

  /** The first rule that does not say "no match" decides; if there is none, there is no policy. */
  lemma {:induction false} FirstMatchDecides(glob: Glob, name: string, rules: seq<Rule>, i: nat)
    requires i <= |rules| && forall j :: 0 <= j < i ==> glob(rules[j].pattern, name) == Some(false)
    ensures i == |rules| ==> GetVolumePolicy(glob, name, rules) == NoPolicy
    ensures i < |rules| && glob(rules[i].pattern, name) == None ==> GetVolumePolicy(glob, name, rules) == BadPattern
    ensures i < |rules| && glob(rules[i].pattern, name) == Some(true) ==>
              GetVolumePolicy(glob, name, rules) == Matched(rules[i].policy)
  {
    if i > 0 {
      assert glob(rules[0].pattern, name) == Some(false);
      assert forall j :: 0 <= j < i - 1 ==> rules[1..][j] == rules[j + 1];
      FirstMatchDecides(glob, name, rules[1..], i - 1);
    }
  }

  // ----- the effect of a tick on one claim -----

  function ReasonOf(s: Saying): ReasonCode {
    match s
    case AboutNote(note) => if note.remark == CoolingDown then ResizeCooldown else Reconcile
    case WasReduced | ReduceRefused => ResizeFailureRecovery
    case WasGrown(_) | GrowRefused => Reconcile
    case IsContested(_) => AmbiguousPVCA
    case IsUnreadable => PVCFetchError
    case PatternInvalid => RecommendationError
    case IsSkipped(cause) =>
      if cause in {NoMetrics, NoSpaceFigures, NoInodeFigures, StaleMetrics} then MetricsFetchError
      else RecommendationError
    case FetchProblem | ResizingUnknown => PVCFetchError
  }

  function ResizingNote(w: World, k: Key, status: Status, s: Saying): seq<Condition> {
    [Condition(ResizingType, status, ReasonOf(s), w.text(k, s))]
  }

  function Failing(w: World, k: Key, s: Saying): seq<Condition> {
    [Condition(RecommendationAvailable, False, ReasonOf(s), w.text(k, s))]
  }

  function Perform(w: World, k: Key, c: Claim, v: Verdict): Effect {
    match v
    case Hold(rec, note) =>
      Effect(None, Some(rec),
             match note case None => [] case Some(n) => ResizingNote(w, k, n.status, AboutNote(n)), [])
    case Reduce(rec, t) =>
      (match w.patch(k)
       case Applied => Effect(Some(Shrunk(c, t)), Some(ShrunkRec(rec, t)), ResizingNote(w, k, True, WasReduced), [])
       case Conflict => Effect(None, Some(rec), [], [])
       case Refused => Effect(None, Some(rec), ResizingNote(w, k, False, ReduceRefused), []))
    case Grow(rec, t, reason) =>
      if w.patch(k) == Applied then
        Effect(Some(Grown(c, c.spec, t)), Some(GrownRec(rec, t, w.stampedAt(k))),
               ResizingNote(w, k, True, WasGrown(reason)), [])
      else Effect(None, Some(rec), ResizingNote(w, k, False, GrowRefused), [])
  }

  /** What a tick does to a claim on behalf of an object, given all objects that fetched it. */
  function EffectOn(w: World, rules: seq<Rule>, holders: seq<Key>, k: Key, claim: Option<Claim>, entry: Rec)
    : (e: Effect)
    ensures e.claim.Some? ==> claim.Some? && e.entry.Some?
    ensures e.entry.Some? ==> |holders| <= 1 && GetVolumePolicy(w.glob, k.name, rules).Matched?
    ensures e.entry.Some? ==> e.entry.value.name == entry.name
  {
    if |holders| > 1 then Effect(None, None, [], Failing(w, k, IsContested(holders)))
    else if claim.None? || !w.readable(k) then Effect(None, None, [], Failing(w, k, IsUnreadable))
    else match GetVolumePolicy(w.glob, k.name, rules)
      case BadPattern => Effect(None, None, [], Failing(w, k, PatternInvalid))
      case NoPolicy => Effect(None, None, [], [])
      case Matched(policy) =>
        match Judge(w.recovery, policy, claim.value, entry, Get(w.metrics, k), w.judgedAt(k))
        case Rejected(cause) => Effect(None, None, [], Failing(w, k, IsSkipped(cause)))
        case Accepted(v) => Perform(w, k, claim.value, v)
  }

  /** What is recorded together with a patch: the entry's target is the new request; a raised
      request also stamps the entry and keeps the old request in the annotation, a lowered one
      leaves stamp and annotation alone; without a patch the stamp stays. */
  lemma EffectRecords(w: World, rules: seq<Rule>, holders: seq<Key>, k: Key, c: Claim, entry: Rec)
    ensures
      var e := EffectOn(w, rules, holders, k, Some(c), entry);
      && (e.claim.Some? ==>
            && w.patch(k) == Applied && e.entry.value.target == Some(e.claim.value.spec) && e.claim.value.spec != c.spec
            && (e.claim.value.spec > c.spec ==> e.claim.value == c.(spec := e.claim.value.spec, prev := Prev(c.spec))
                                                && e.entry.value.lastResize == Some(w.stampedAt(k)))
            && (e.claim.value.spec < c.spec ==> e.claim.value == c.(spec := e.claim.value.spec)
                                                && e.entry.value.lastResize == entry.lastResize))
      && (e.claim.None? && e.entry.Some? ==> e.entry.value.lastResize == entry.lastResize)
  {
  }

  /** Each visited claim is accounted for: it is recorded, or it contributes a failing condition,
      or it is readable, uncontested and has no policy. */
  lemma EffectAccounts(w: World, rules: seq<Rule>, holders: seq<Key>, k: Key, claim: Option<Claim>, entry: Rec)
    ensures
      var e := EffectOn(w, rules, holders, k, claim, entry);
      && (e.recommending == [] <==>
            || e.entry.Some?
            || (|holders| <= 1 && claim.Some? && w.readable(k) && GetVolumePolicy(w.glob, k.name, rules).NoPolicy?))
      && (e.entry.Some? ==> e.recommending == [])
      && (forall i :: 0 <= i < |e.recommending| ==> e.recommending[i].status == False)
      && (e.recommending != [] ==> e.resizing == [])
  {
  }

  // ----- one autoscaler object -----

  function OwnersAt(owners: Owners, k: Key): seq<Key> { if k in owners then owners[k] else [] }

  predicate Contested(owners: Owners, k: Key) { |OwnersAt(owners, k)| > 1 }

  function CtxOf(w: World, ns: string, rules: seq<Rule>, owners: Owners): Ctx {
    Ctx(ns, (n, c, r) => EffectOn(w, rules, OwnersAt(owners, Key(ns, n)), Key(ns, n), c, r))
  }

  lemma CtxSound(w: World, ns: string, rules: seq<Rule>, owners: Owners)
    ensures
      var x := CtxOf(w, ns, rules, owners);
      && Sound(x)
      && (forall n :: Contested(owners, Key(ns, n)) ==> Blind(x, n))
      && (forall n, c, r :: x.effect(n, c, r).entry.Some? ==>
                              !Contested(owners, Key(ns, n)) && GetVolumePolicy(w.glob, n, rules).Matched?)
  {
  }

  /** An old entry survives if its claim is still fetched and still has a policy. */
  function Survives(w: World, rules: seq<Rule>, names: seq<string>): string -> bool {
    n => n in names && GetVolumePolicy(w.glob, n, rules).Matched?
  }

  function Start(w: World, pvca: Pvca, names: seq<string>, claims: map<Key, Claim>): Progress {
    Progress(claims, Filtered(pvca.recs, Survives(w, pvca.rules, names)), [], [], multiset{})
  }

  function VisitAll(w: World, owners: Owners, key: Key, pvca: Pvca, names: seq<string>, claims: map<Key, Claim>)
    : Progress
  {
    Visit(CtxOf(w, key.ns, pvca.rules, owners), Start(w, pvca, names, claims), names)
  }

  ghost function WithStatus(pvca: Pvca, q: Progress): Pvca {
    pvca.(conditions := Published(Published(pvca.conditions, AggregateResizing(q.resizing)),
                                  AggregateRecommendations(q.recommending)),
          recs := Sort(q.recs, RecName))
  }

  ghost function ReconcileOne(w: World, owners: Owners, s: Cluster, key: Key): Cluster
    requires key in s.pvcas && w.fetch(key).Fetched?
  {
    var q := VisitAll(w, owners, key, s.pvcas[key], w.fetch(key).names, s.claims);
    Cluster(q.claims,
            if w.statusSaved(key) then s.pvcas[key := WithStatus(s.pvcas[key], q)] else s.pvcas,
            s.writes + q.writes)
  }

  /** The entries of a status that was published are distinct, sorted, and each names a fetched
      claim with a policy. A claim is listed exactly when it is fetched, has a policy, and was
      listed before or recorded now; an entry that is not recorded anew is carried over. */
  lemma PublishedListIntegrity(w: World, owners: Owners, key: Key, pvca: Pvca, claims: map<Key, Claim>, n: string)
    requires w.fetch(key).Fetched? && NoDup(w.fetch(key).names) && Distinct(pvca.recs)
    ensures
      var names := w.fetch(key).names;
      var recs := WithStatus(pvca, VisitAll(w, owners, key, pvca, names, claims)).recs;
      var kept := Filtered(pvca.recs, Survives(w, pvca.rules, names));
      var e := CtxOf(w, key.ns, pvca.rules, owners).effect(n, Get(claims, Key(key.ns, n)), GetOrCreate(kept, n));
      && Distinct(recs) && SortedBy(recs, RecName)
      && (Lists(recs, n) <==>
            && n in names && GetVolumePolicy(w.glob, n, pvca.rules).Matched?
            && (Lists(pvca.recs, n) || e.entry.Some?))
      && (Lists(recs, n) ==> Lookup(recs, n) == if e.entry.Some? then e.entry else Lookup(pvca.recs, n))
  {
    var names := w.fetch(key).names;
    var x := CtxOf(w, key.ns, pvca.rules, owners);
    var p := Start(w, pvca, names, claims);
    CtxSound(w, key.ns, pvca.rules, owners);
    FilteredMember(pvca.recs, Survives(w, pvca.rules, names));
    FilteredLookup(pvca.recs, Survives(w, pvca.rules, names), n);
    VisitDistinct(x, p, names);
    VisitIsLocal(x, p, names, n);
    SortKeeps(Visit(x, p, names).recs);
  }

  /** RecommendationAvailable is published as True exactly when no visited claim failed. */
  lemma AvailableIff(w: World, owners: Owners, key: Key, pvca: Pvca, names: seq<string>, claims: map<Key, Claim>)
    requires NoDup(names)
    ensures
      var x, p := CtxOf(w, key.ns, pvca.rules, owners), Start(w, pvca, names, claims);
      AggregateRecommendations(VisitAll(w, owners, key, pvca, names, claims).recommending).status == True
      <==> forall n :: n in names ==> EffectAt(x, p, n).recommending == []
  {
    var x, p := CtxOf(w, key.ns, pvca.rules, owners), Start(w, pvca, names, claims);
    CtxSound(w, key.ns, pvca.rules, owners);
    VisitNotes(x, p, names);
    FlatEmptyIff(names, RecommendingAt(x, p));
  }

  // ----- who owns a claim -----

  /** The owners of a claim after an object has appended itself once per matching name. */
  function Claimed(before: seq<Key>, pvca: Key, names: seq<string>, k: Key): seq<Key> {
    if names == [] then before
    else
      var n := |names| - 1;
      var rest := Claimed(before, pvca, names[..n], k);
      if Key(pvca.ns, names[n]) == k then rest + [pvca] else rest
  }

  function OwnersOf(w: World, list: seq<Key>, k: Key): seq<Key> {
    if list == [] then []
    else
      var n := |list| - 1;
      var rest := OwnersOf(w, list[..n], k);
      if w.fetch(list[n]).Fetched? then Claimed(rest, list[n], w.fetch(list[n]).names, k) else rest
  }

  /** The reverse map agrees with the fetch results. */
  ghost predicate Exact(w: World, list: seq<Key>, owners: Owners) {
    forall k :: OwnersAt(owners, k) == OwnersOf(w, list, k)
  }

  predicate Fetches(w: World, pvca: Key, k: Key) {
    w.fetch(pvca).Fetched? && k.ns == pvca.ns && k.name in w.fetch(pvca).names
  }

  lemma {:induction false} ClaimedLength(before: seq<Key>, pvca: Key, names: seq<string>, k: Key)
    ensures |Claimed(before, pvca, names, k)| >= |before| + (if k.ns == pvca.ns && k.name in names then 1 else 0)
    ensures NoDup(names) ==>
              |Claimed(before, pvca, names, k)| == |before| + (if k.ns == pvca.ns && k.name in names then 1 else 0)
  {
    if names != [] {
      var n := |names| - 1;
      assert names == names[..n] + [names[n]];
      if NoDup(names) { NoDupSplit(names); }
      ClaimedLength(before, pvca, names[..n], k);
    }
  }

  /** A fetched claim has an owner, and one fetched by two objects is contested. */
  lemma {:induction false} OwnersCount(w: World, list: seq<Key>, k: Key, p: Key)
    requires p in list && Fetches(w, p, k)
    ensures |OwnersOf(w, list, k)| >= 1
    ensures (exists q :: q in list && q != p && Fetches(w, q, k)) ==> |OwnersOf(w, list, k)| > 1
  {
    var n := |list| - 1;
    assert list == list[..n] + [list[n]];
    if w.fetch(list[n]).Fetched? { ClaimedLength(OwnersOf(w, list[..n], k), list[n], w.fetch(list[n]).names, k); }
    if p in list[..n] { OwnersCount(w, list[..n], k, p); }
    if q :| q in list && q != p && Fetches(w, q, k) {
      if q in list[..n] { OwnersCount(w, list[..n], k, q); }
    }
  }

  predicate Owns(w: World, owners: Owners, pvca: Key, k: Key) {
    Fetches(w, pvca, k) && !Contested(owners, k)
  }

  lemma OneOwner(w: World, list: seq<Key>, owners: Owners, p: Key, q: Key, k: Key)
    requires Exact(w, list, owners) && p in list && q in list && Owns(w, owners, p, k) && Fetches(w, q, k)
    ensures p == q
  {
    OwnersCount(w, list, k, p);
  }

  // ----- all objects, in any order -----

  ghost predicate Reconcilable(w: World, s: Cluster, order: seq<Key>) {
    NoDup(order) && forall p :: p in order ==> p in s.pvcas && w.fetch(p).Fetched?
  }

  ghost function InOrder(w: World, owners: Owners, s: Cluster, order: seq<Key>): (r: Cluster)
    requires Reconcilable(w, s, order)
    ensures r.pvcas.Keys == s.pvcas.Keys
  {
    if order == [] then s
    else
      NoDupSplit(order);
      var n := |order| - 1;
      ReconcileOne(w, owners, InOrder(w, owners, s, order[..n]), order[n])
  }

  ghost predicate DisjointOwners(w: World, owners: Owners, order: seq<Key>) {
    forall p, q, k :: p in order && q in order && Owns(w, owners, p, k) && Owns(w, owners, q, k) ==> p == q
  }

  /** The visits of an object over two sets of claims agree if they agree on its own claims. */
  lemma VisitAllReadsOwn(w: World, owners: Owners, p: Key, pvca: Pvca, c: map<Key, Claim>, d: map<Key, Claim>, k: Key)
    requires w.fetch(p).Fetched?
    requires forall m :: Owns(w, owners, p, m) ==> Get(c, m) == Get(d, m)
    ensures
      var a, b := VisitAll(w, owners, p, pvca, w.fetch(p).names, c), VisitAll(w, owners, p, pvca, w.fetch(p).names, d);
      && a.recs == b.recs && a.resizing == b.resizing && a.recommending == b.recommending && a.writes == b.writes
      && (Owns(w, owners, p, k) ==> Get(a.claims, k) == Get(b.claims, k))
  {
    var names := w.fetch(p).names;
    var x := CtxOf(w, p.ns, pvca.rules, owners);
    var start := Start(w, pvca, names, c);
    CtxSound(w, p.ns, pvca.rules, owners);
    assert forall n :: n in names && !Blind(x, n) ==> Owns(w, owners, p, Key(p.ns, n));
    assert start.(claims := d) == Start(w, pvca, names, d);
    VisitReadsOwn(x, start, d, names, names);
    if Owns(w, owners, p, k) {
      assert k == Key(x.ns, k.name);
      VisitFrame(x, start, names, k);
      VisitFrame(x, start.(claims := d), names, k);
    }
  }

  /** Reconciling an object depends on its own status and its own claims only. */
  lemma ReconcileReadsOwn(w: World, owners: Owners, s: Cluster, t: Cluster, p: Key, k: Key)
    requires p in s.pvcas && p in t.pvcas && s.pvcas[p] == t.pvcas[p] && w.fetch(p).Fetched?
    requires forall m :: Owns(w, owners, p, m) ==> Get(s.claims, m) == Get(t.claims, m)
    ensures
      var a, b := ReconcileOne(w, owners, s, p), ReconcileOne(w, owners, t, p);
      && a.pvcas[p] == b.pvcas[p]
      && (Owns(w, owners, p, k) ==> Get(a.claims, k) == Get(b.claims, k))
      && a.writes[k] - s.writes[k] == b.writes[k] - t.writes[k]
  {
    VisitAllReadsOwn(w, owners, p, s.pvcas[p], s.claims, t.claims, k);
  }

  /** Reconciling an object leaves everything it does not own alone. */
  lemma ReconcileFrame(w: World, owners: Owners, s: Cluster, p: Key, k: Key)
    requires p in s.pvcas && w.fetch(p).Fetched?
    ensures
      var r := ReconcileOne(w, owners, s, p);
      && r.claims.Keys == s.claims.Keys
      && (!Owns(w, owners, p, k) ==> Get(r.claims, k) == Get(s.claims, k) && r.writes[k] == s.writes[k])
      && (forall q :: q in s.pvcas && q != p ==> r.pvcas[q] == s.pvcas[q])
  {
    var pvca, names := s.pvcas[p], w.fetch(p).names;
    CtxSound(w, p.ns, pvca.rules, owners);
    VisitFrame(CtxOf(w, p.ns, pvca.rules, owners), Start(w, pvca, names, s.claims), names, k);
  }

  /** Until its turn comes, an object finds its status and its claims as they were. */
  lemma {:induction false} UntouchedBefore(w: World, owners: Owners, s: Cluster, order: seq<Key>, p: Key)
    requires Reconcilable(w, s, order) && p in s.pvcas && p !in order
    ensures InOrder(w, owners, s, order).pvcas[p] == s.pvcas[p]
  {
    if order != [] {
      NoDupSplit(order);
      var n := |order| - 1;
      UntouchedBefore(w, owners, s, order[..n], p);
      ReconcileFrame(w, owners, InOrder(w, owners, s, order[..n]), order[n], p);
    }
  }

  lemma {:induction false} UnownedUntouched(w: World, owners: Owners, s: Cluster, order: seq<Key>, k: Key)
    requires Reconcilable(w, s, order)
    requires forall p :: p in order ==> !Owns(w, owners, p, k)
    ensures Get(InOrder(w, owners, s, order).claims, k) == Get(s.claims, k)
    ensures InOrder(w, owners, s, order).writes[k] == s.writes[k]
  {
    if order != [] {
      NoDupSplit(order);
      var n := |order| - 1;
      UnownedUntouched(w, owners, s, order[..n], k);
      ReconcileFrame(w, owners, InOrder(w, owners, s, order[..n]), order[n], k);
    }
  }

  /** What a whole tick does to an object and to a claim it owns: what reconciling that object
      alone would have done. */
  lemma {:induction false} AfterTick(w: World, owners: Owners, s: Cluster, order: seq<Key>, p: Key, k: Key)
    requires Reconcilable(w, s, order) && DisjointOwners(w, owners, order) && p in order
    ensures
      var r, own := InOrder(w, owners, s, order), ReconcileOne(w, owners, s, p);
      && r.pvcas[p] == own.pvcas[p]
      && (Owns(w, owners, p, k) ==> Get(r.claims, k) == Get(own.claims, k) && r.writes[k] == own.writes[k])
  {
    NoDupSplit(order);
    var n := |order| - 1;
    var t := InOrder(w, owners, s, order[..n]);
    if order[n] == p {
      UntouchedBefore(w, owners, s, order[..n], p);
      forall m | Owns(w, owners, p, m)
        ensures Get(s.claims, m) == Get(t.claims, m) && t.writes[m] == s.writes[m]
      {
        UnownedUntouched(w, owners, s, order[..n], m);
      }
      ReconcileReadsOwn(w, owners, s, t, p, k);
    } else {
      AfterTick(w, owners, s, order[..n], p, k);
      ReconcileFrame(w, owners, t, order[n], k);
    }
  }

  lemma SamePvca(w: World, owners: Owners, s: Cluster, a: seq<Key>, b: seq<Key>, p: Key)
    requires Reconcilable(w, s, a) && Reconcilable(w, s, b) && DisjointOwners(w, owners, a)
    requires (forall p :: p in a <==> p in b) && p in s.pvcas
    ensures InOrder(w, owners, s, a).pvcas[p] == InOrder(w, owners, s, b).pvcas[p]
  {
    if p in a {
      AfterTick(w, owners, s, a, p, p);
      AfterTick(w, owners, s, b, p, p);
    } else {
      UntouchedBefore(w, owners, s, a, p);
      UntouchedBefore(w, owners, s, b, p);
    }
  }

  lemma SameClaim(w: World, owners: Owners, s: Cluster, a: seq<Key>, b: seq<Key>, k: Key)
    requires Reconcilable(w, s, a) && Reconcilable(w, s, b) && DisjointOwners(w, owners, a)
    requires forall p :: p in a <==> p in b
    ensures Get(InOrder(w, owners, s, a).claims, k) == Get(InOrder(w, owners, s, b).claims, k)
    ensures InOrder(w, owners, s, a).writes[k] == InOrder(w, owners, s, b).writes[k]
  {
    if p :| p in a && Owns(w, owners, p, k) {
      AfterTick(w, owners, s, a, p, k);
      AfterTick(w, owners, s, b, p, k);
    } else {
      UnownedUntouched(w, owners, s, a, k);
      UnownedUntouched(w, owners, s, b, k);
    }
  }

  /** Go iterates the fetched objects in no particular order; every order ends in the same
      cluster, to the last claim, status and write count. */
  lemma TickOrderIrrelevant(w: World, owners: Owners, s: Cluster, a: seq<Key>, b: seq<Key>)
    requires Reconcilable(w, s, a) && Reconcilable(w, s, b)
    requires forall p :: p in a <==> p in b
    requires DisjointOwners(w, owners, a)
    ensures InOrder(w, owners, s, a) == InOrder(w, owners, s, b)
  {
    var ra, rb := InOrder(w, owners, s, a), InOrder(w, owners, s, b);
    forall p | p in s.pvcas ensures ra.pvcas[p] == rb.pvcas[p] {
      SamePvca(w, owners, s, a, b, p);
    }
    forall k ensures Get(ra.claims, k) == Get(rb.claims, k) && ra.writes[k] == rb.writes[k] {
      SameClaim(w, owners, s, a, b, k);
    }
    SameGetsSameMap(ra.claims, rb.claims);
    assert ra.pvcas == rb.pvcas && ra.writes == rb.writes;
  }

  /** No claim is patched more than once in a tick, and only by the one object that owns it. */
  lemma OneWriterPerTick(w: World, owners: Owners, s: Cluster, order: seq<Key>, k: Key)
    requires Reconcilable(w, s, order) && DisjointOwners(w, owners, order)
    requires forall p :: p in order ==> NoDup(w.fetch(p).names)
    ensures
      var r := InOrder(w, owners, s, order);
      && s.writes[k] <= r.writes[k] <= s.writes[k] + 1
      && (Get(r.claims, k) != Get(s.claims, k) ==> r.writes[k] == s.writes[k] + 1)
      && (r.writes[k] > s.writes[k] ==> exists p :: p in order && Owns(w, owners, p, k))
  {
    if p :| p in order && Owns(w, owners, p, k) {
      AfterTick(w, owners, s, order, p, k);
      var pvca, names := s.pvcas[p], w.fetch(p).names;
      var x := CtxOf(w, p.ns, pvca.rules, owners);
      CtxSound(w, p.ns, pvca.rules, owners);
      VisitIsLocal(x, Start(w, pvca, names, s.claims), names, k.name);
      assert Key(x.ns, k.name) == k;
    } else {
      UnownedUntouched(w, owners, s, order, k);
    }
  }
}
