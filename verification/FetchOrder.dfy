/** The outcome of a tick depends on which objects are listed and which claims they fetch, not on
    the order in which either of them arrives; only the wording of conditions may show in which
    order the objects were listed. */
module FetchOrder {
  import opened Api
  import opened ClaimLogic
  import opened Recommendations
  import opened Visiting
  import opened Tick
  import opened Ownership

  // ----- the owners of a claim -----

  /** The listed objects that fetch the claim, in list order. */
  ghost function FetchersOf(w: World, list: seq<Key>, k: Key): seq<Key> {
    if list == [] then []
    else
      var n := |list| - 1;
      FetchersOf(w, list[..n], k) + (if Fetches(w, list[n], k) then [list[n]] else [])
  }

  /** Objects fetch no claim twice. */
  ghost predicate FetchOnce(w: World, list: seq<Key>) {
    forall p :: p in list && w.fetch(p).Fetched? ==> NoDup(w.fetch(p).names)
  }

  lemma {:induction false} ClaimedOnce(before: seq<Key>, pvca: Key, names: seq<string>, k: Key)
    requires NoDup(names)
    ensures Claimed(before, pvca, names, k) ==
              before + (if k.ns == pvca.ns && k.name in names then [pvca] else [])
  {
    if names != [] {
      NoDupSplit(names);
      ClaimedOnce(before, pvca, names[..|names| - 1], k);
    }
  }

  /** The reverse map holds for each claim exactly the objects that fetch it, in list order. */
  lemma {:induction false} OwnersAreFetchers(w: World, list: seq<Key>, k: Key)
    requires FetchOnce(w, list)
    ensures OwnersOf(w, list, k) == FetchersOf(w, list, k)
  {
    if list != [] {
      var n := |list| - 1;
      assert list == list[..n] + [list[n]];
      OwnersAreFetchers(w, list[..n], k);
      if w.fetch(list[n]).Fetched? { ClaimedOnce(OwnersOf(w, list[..n], k), list[n], w.fetch(list[n]).names, k); }
    }
  }

  lemma {:induction false} FetchersCount(w: World, list: seq<Key>, k: Key)
    requires NoDup(list)
    ensures forall p :: multiset(FetchersOf(w, list, k))[p] == if p in list && Fetches(w, p, k) then 1 else 0
  {
    if list != [] {
      NoDupSplit(list);
      FetchersCount(w, list[..|list| - 1], k);
    }
  }

  /** A claim is contested exactly when two of the listed objects fetch it. */
  lemma ContestedIff(w: World, list: seq<Key>, k: Key)
    requires NoDup(list) && FetchOnce(w, list)
    ensures |OwnersOf(w, list, k)| > 1 <==>
              exists p, q :: p in list && q in list && p != q && Fetches(w, p, k) && Fetches(w, q, k)
  {
    OwnersAreFetchers(w, list, k);
    FetchersCount(w, list, k);
    var all := FetchersOf(w, list, k);
    if |all| > 1 {
      if all[0] == all[1] { TwiceInMultiset(all, 0, 1); }
      assert all[0] in multiset(all) && all[1] in multiset(all);
    }
    if p, q :| p in list && q in list && p != q && Fetches(w, p, k) && Fetches(w, q, k) {
      OwnersCount(w, list, k, p);
    }
  }

  // ----- worlds that differ in orders and wording -----

  /** Same claims, in another order; failures are the same. */
  ghost predicate SameFetch(a: Fetch, b: Fetch) {
    if a.Fetched? && b.Fetched? then multiset(a.names) == multiset(b.names) else a == b
  }

  /** The worlds differ at most in the order of fetched names and in the wording of messages. */
  ghost predicate SameWorld(v: World, w: World) {
    w == v.(fetch := w.fetch, text := w.text) && forall p :: SameFetch(v.fetch(p), w.fetch(p))
  }

  lemma SameFetches(v: World, w: World, p: Key, k: Key)
    requires SameWorld(v, w)
    ensures v.fetch(p).Fetched? == w.fetch(p).Fetched? && (Fetches(v, p, k) <==> Fetches(w, p, k))
  {
    assert SameFetch(v.fetch(p), w.fetch(p));
    if v.fetch(p).Fetched? {
      assert k.name in v.fetch(p).names <==> k.name in multiset(v.fetch(p).names);
      assert k.name in w.fetch(p).names <==> k.name in multiset(w.fetch(p).names);
    }
  }

  lemma {:induction false} SameFetchers(v: World, w: World, list: seq<Key>, k: Key)
    requires SameWorld(v, w)
    ensures FetchersOf(v, list, k) == FetchersOf(w, list, k)
  {
    if list != [] {
      SameFetches(v, w, list[|list| - 1], k);
      SameFetchers(v, w, list[..|list| - 1], k);
    }
  }

  /** The owners of a claim are the same objects, and in the same order if they were listed so. */
  lemma SameOwners(v: World, w: World, list: seq<Key>, list': seq<Key>, owners: Owners, owners': Owners, k: Key)
    requires SameWorld(v, w) && NoDup(list) && NoDup(list') && forall p :: p in list <==> p in list'
    requires FetchOnce(v, list) && FetchOnce(w, list') && Exact(v, list, owners) && Exact(w, list', owners')
    ensures multiset(OwnersAt(owners, k)) == multiset(OwnersAt(owners', k))
    ensures list == list' ==> OwnersAt(owners, k) == OwnersAt(owners', k)
  {
    OwnersAreFetchers(v, list, k);
    OwnersAreFetchers(w, list', k);
    SameFetchers(v, w, list, k);
    FetchersCount(w, list, k);
    FetchersCount(w, list', k);
  }

  lemma SamePerform(v: World, w: World, k: Key, c: Claim, verdict: Verdict)
    requires SameWorld(v, w)
    ensures
      var d, e := Perform(v, k, c, verdict), Perform(w, k, c, verdict);
      d.claim == e.claim && d.entry == e.entry && (v.text == w.text ==> d == e)
  {
  }

  /** Effects differ at most in the conditions, and not even there if the wording is the same. */
  lemma SameEffect(
    v: World, w: World, rules: seq<Rule>, a: seq<Key>, b: seq<Key>, k: Key, claim: Option<Claim>, entry: Rec)
    requires SameWorld(v, w) && |a| == |b|
    ensures
      var d, e := EffectOn(v, rules, a, k, claim, entry), EffectOn(w, rules, b, k, claim, entry);
      && d.claim == e.claim && d.entry == e.entry
      && (v.text == w.text && a == b ==> d == e)
  {
    assert v.glob == w.glob && v.metrics == w.metrics && v.recovery == w.recovery;
    assert v.readable(k) == w.readable(k) && v.judgedAt(k) == w.judgedAt(k);
    var l := GetVolumePolicy(v.glob, k.name, rules);
    if |a| <= 1 && claim.Some? && l.Matched? {
      var j := Judge(v.recovery, l.policy, claim.value, entry, Get(v.metrics, k), v.judgedAt(k));
      if j.Accepted? { SamePerform(v, w, k, claim.value, j.verdict); }
    }
  }

  lemma SameStart(v: World, w: World, pvca: Pvca, pvca': Pvca, a: seq<string>, b: seq<string>, claims: map<Key, Claim>)
    requires SameWorld(v, w) && multiset(a) == multiset(b) && pvca.recs == pvca'.recs && pvca.rules == pvca'.rules
    ensures Start(v, pvca, a, claims) == Start(w, pvca', b, claims)
  {
    forall n ensures Survives(v, pvca.rules, a)(n) == Survives(w, pvca.rules, b)(n) {
      assert n in a <==> n in multiset(a);
      assert n in b <==> n in multiset(b);
    }
    FilteredExt(pvca.recs, Survives(v, pvca.rules, a), Survives(w, pvca.rules, b));
  }

  // ----- reconciling in such worlds -----

  /** Equal but for published conditions. */
  ghost predicate AlikePvca(a: Pvca, b: Pvca) { b == a.(conditions := b.conditions) }

  ghost predicate SameButConditions(s: Cluster, t: Cluster) {
    && s.claims == t.claims && s.writes == t.writes && s.pvcas.Keys == t.pvcas.Keys
    && forall p :: p in s.pvcas ==> AlikePvca(s.pvcas[p], t.pvcas[p])
  }

  /** Each claim has as many owners, and the very same ones if `exact`. */
  ghost predicate Alike(v: World, w: World, owners: Owners, owners': Owners, exact: bool) {
    && SameWorld(v, w) && (exact ==> v.text == w.text)
    && forall k ::
         && |OwnersAt(owners, k)| == |OwnersAt(owners', k)|
         && (exact ==> OwnersAt(owners, k) == OwnersAt(owners', k))
  }

  lemma AlikeVisits(
    v: World, w: World, owners: Owners, owners': Owners, exact: bool, ns: string, rules: seq<Rule>, p: Progress,
    names: seq<string>)
    requires Alike(v, w, owners, owners', exact)
    ensures
      var q, r := Visit(CtxOf(v, ns, rules, owners), p, names), Visit(CtxOf(w, ns, rules, owners'), p, names);
      && q.claims == r.claims && q.recs == r.recs && q.writes == r.writes
      && (exact ==> q == r)
  {
    var x, y := CtxOf(v, ns, rules, owners), CtxOf(w, ns, rules, owners');
    forall n, c, r
      ensures
        var d, e := x.effect(n, c, r), y.effect(n, c, r);
        d.claim == e.claim && d.entry == e.entry && (exact ==> d == e)
    {
      var k := Key(ns, n);
      SameEffect(v, w, rules, OwnersAt(owners, k), OwnersAt(owners', k), k, c, r);
    }
    VisitExt(x, y, p, names);
    if exact { VisitSame(x, y, p, names); }
  }

  lemma AlikeReconcile(
    v: World, w: World, owners: Owners, owners': Owners, exact: bool, s: Cluster, t: Cluster, p: Key)
    requires Alike(v, w, owners, owners', exact) && SameButConditions(s, t) && p in s.pvcas && Distinct(s.pvcas[p].recs)
    requires v.fetch(p).Fetched? && w.fetch(p).Fetched? && NoDup(v.fetch(p).names) && NoDup(w.fetch(p).names)
    ensures SameButConditions(ReconcileOne(v, owners, s, p), ReconcileOne(w, owners', t, p))
    ensures exact && s == t ==> ReconcileOne(v, owners, s, p) == ReconcileOne(w, owners', t, p)
  {
    var pvca, a, b := s.pvcas[p], v.fetch(p).names, w.fetch(p).names;
    assert SameFetch(v.fetch(p), w.fetch(p)) && AlikePvca(pvca, t.pvcas[p]);
    var x, start := CtxOf(v, p.ns, pvca.rules, owners), Start(v, pvca, a, s.claims);
    SameStart(v, w, pvca, t.pvcas[p], a, b, s.claims);
    CtxSound(v, p.ns, pvca.rules, owners);
    FilteredMember(pvca.recs, Survives(v, pvca.rules, a));
    FetchOrderIrrelevant(x, start, a, b);
    AlikeVisits(v, w, owners, owners', exact, p.ns, pvca.rules, start, b);
  }

  lemma {:induction false} AlikeInOrder(
    v: World, w: World, owners: Owners, owners': Owners, exact: bool, s: Cluster, t: Cluster, order: seq<Key>)
    requires Alike(v, w, owners, owners', exact) && SameButConditions(s, t)
    requires Reconcilable(v, s, order) && Reconcilable(w, t, order) && FetchOnce(v, order) && FetchOnce(w, order)
    requires forall p :: p in order ==> Distinct(s.pvcas[p].recs)
    ensures SameButConditions(InOrder(v, owners, s, order), InOrder(w, owners', t, order))
    ensures exact && s == t ==> InOrder(v, owners, s, order) == InOrder(w, owners', t, order)
  {
    if order != [] {
      NoDupSplit(order);
      var n := |order| - 1;
      AlikeInOrder(v, w, owners, owners', exact, s, t, order[..n]);
      var q, r := InOrder(v, owners, s, order[..n]), InOrder(w, owners', t, order[..n]);
      UntouchedBefore(v, owners, s, order[..n], order[n]);
      AlikeReconcile(v, w, owners, owners', exact, q, r, order[n]);
    }
  }

  lemma AlikeFetchPhase(v: World, w: World, s: Cluster, list: seq<Key>, list': seq<Key>)
    requires SameWorld(v, w) && NoDup(list) && NoDup(list')
    requires (forall k :: k in list ==> k in s.pvcas) && forall p :: p in list <==> p in list'
    ensures
      var a, b := FetchPhase(v, s.pvcas, list), FetchPhase(w, s.pvcas, list');
      SameButConditions(s.(pvcas := a), s.(pvcas := b)) && (v.text == w.text ==> a == b)
  {
    var a, b := FetchPhase(v, s.pvcas, list), FetchPhase(w, s.pvcas, list');
    forall p | p in s.pvcas ensures AlikePvca(a[p], b[p]) && (v.text == w.text ==> a[p] == b[p]) {
      FetchPhaseAt(v, s.pvcas, list, p);
      FetchPhaseAt(w, s.pvcas, list', p);
      assert SameFetch(v.fetch(p), w.fetch(p));
    }
  }

  /** Two ticks over the same cluster in worlds that differ only in the order of fetched claims
      and in wording, with the objects listed and visited in any order, end in clusters that
      differ at most in the published conditions. With the same wording and listing, they end in
      the same cluster, to the last claim, status text and write count. */
  lemma TickIgnoresOrders(
    v: World, w: World, s: Cluster, name: string, list: seq<Key>, list': seq<Key>,
    owners: Owners, owners': Owners, order: seq<Key>, order': seq<Key>)
    requires SameWorld(v, w) && AllDistinct(s, name)
    requires Plan(v, s, name, list, owners, order) && Plan(w, s, name, list', owners', order')
    ensures SameButConditions(TickAll(v, s, list, owners, order), TickAll(w, s, list', owners', order'))
    ensures v.text == w.text && list == list' ==>
              TickAll(v, s, list, owners, order) == TickAll(w, s, list', owners', order')
  {
    var exact := v.text == w.text && list == list';
    AlikePlans(v, w, s, name, list, list', owners, owners', order, order');
    var f, g := s.(pvcas := FetchPhase(v, s.pvcas, list)), s.(pvcas := FetchPhase(w, s.pvcas, list'));
    AlikeFetchPhase(v, w, s, list, list');
    forall p | p in order ensures Distinct(f.pvcas[p].recs) { FetchPhaseAt(v, s.pvcas, list, p); }
    AlikeInOrder(v, w, owners, owners', exact, f, g, order);
    PlanDisjoint(w, s, name, list', owners', order');
    TickOrderIrrelevant(w, owners', g, order', order);
  }

  lemma AlikePlans(
    v: World, w: World, s: Cluster, name: string, list: seq<Key>, list': seq<Key>,
    owners: Owners, owners': Owners, order: seq<Key>, order': seq<Key>)
    requires SameWorld(v, w)
    requires Plan(v, s, name, list, owners, order) && Plan(w, s, name, list', owners', order')
    ensures (forall p :: p in order <==> p in order') && FetchOnce(w, order)
    ensures Alike(v, w, owners, owners', v.text == w.text && list == list')
  {
    forall p ensures v.fetch(p).Fetched? == w.fetch(p).Fetched? { SameFetches(v, w, p, p); }
    forall k
      ensures |OwnersAt(owners, k)| == |OwnersAt(owners', k)|
      ensures list == list' ==> OwnersAt(owners, k) == OwnersAt(owners', k)
    {
      SameOwners(v, w, list, list', owners, owners', k);
      assert |OwnersAt(owners, k)| == |multiset(OwnersAt(owners, k))| == |multiset(OwnersAt(owners', k))|;
    }
  }
}
