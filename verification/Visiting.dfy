/** Visiting the claims of one autoscaler object, for any effect a tick may have on a single
    claim. */
module Visiting {
  import opened Api
  import opened Conditions
  import opened Ordering
  import opened Recommendations

  function Get<V>(m: map<Key, V>, k: Key): Option<V> { if k in m then Some(m[k]) else None }

  /** New claim if it was patched, new entry if one is recorded, and the conditions added. */
  datatype Effect = Effect(
    claim: Option<Claim>,
    entry: Option<Rec>,
    resizing: seq<Condition>,
    recommending: seq<Condition>)

  datatype Progress = Progress(
    claims: map<Key, Claim>,
    recs: seq<Rec>,
    resizing: seq<Condition>,
    recommending: seq<Condition>,
    writes: multiset<Key>)

  /** The namespace of the object and what a tick does to a claim of that namespace, given its
      name, the claim as read and its entry. */
  datatype Ctx = Ctx(ns: string, effect: (string, Option<Claim>, Rec) -> Effect)

  /** Only existing claims are patched, a patch always records an entry, and entries keep their
      names. */
  ghost predicate Sound(x: Ctx) {
    forall n, c, r ::
      var e := x.effect(n, c, r);
      (e.claim.Some? ==> c.Some? && e.entry.Some?) && (e.entry.Some? ==> e.entry.value.name == r.name)
  }

  /** The claim with this name is neither read nor touched. */
  ghost predicate Blind(x: Ctx, n: string) {
    forall c, d, r :: x.effect(n, c, r) == x.effect(n, d, r) && x.effect(n, c, r).entry.None?
  }

  function EffectAt(x: Ctx, p: Progress, name: string): Effect {
    x.effect(name, Get(p.claims, Key(x.ns, name)), GetOrCreate(p.recs, name))
  }

  function Apply(x: Ctx, p: Progress, name: string, e: Effect): Progress {
    var k := Key(x.ns, name);
    Progress(
      if e.claim.Some? then p.claims[k := e.claim.value] else p.claims,
      if e.entry.Some? then SetRec(p.recs, name, e.entry.value) else p.recs,
      p.resizing + e.resizing,
      p.recommending + e.recommending,
      if e.claim.Some? then p.writes + multiset{k} else p.writes)
  }

  function Visit(x: Ctx, p: Progress, names: seq<string>): Progress {
    if names == [] then p
    else
      var n := |names| - 1;
      var q := Visit(x, p, names[..n]);
      Apply(x, q, names[n], EffectAt(x, q, names[n]))
  }

  /** Conditions never feed back: claims, entries and writes depend on the rest of the effects
      only. */
  lemma {:induction false} VisitExt(x: Ctx, y: Ctx, p: Progress, names: seq<string>)
    requires x.ns == y.ns
    requires forall n, c, r ::
               x.effect(n, c, r).claim == y.effect(n, c, r).claim && x.effect(n, c, r).entry == y.effect(n, c, r).entry
    ensures
      var q, q' := Visit(x, p, names), Visit(y, p, names);
      q.claims == q'.claims && q.recs == q'.recs && q.writes == q'.writes
  {
    if names != [] { VisitExt(x, y, p, names[..|names| - 1]); }
  }

  lemma {:induction false} VisitSame(x: Ctx, y: Ctx, p: Progress, names: seq<string>)
    requires x.ns == y.ns && forall n, c, r :: x.effect(n, c, r) == y.effect(n, c, r)
    ensures Visit(x, p, names) == Visit(y, p, names)
  {
    if names != [] { VisitSame(x, y, p, names[..|names| - 1]); }
  }

  predicate NoDup<T(==)>(s: seq<T>) { forall i, j :: 0 <= i < j < |s| ==> s[i] != s[j] }

  lemma EntryName(recs: seq<Rec>, name: string)
    ensures GetOrCreate(recs, name).name == name
  {
    LookupMember(recs, name);
  }

  lemma NoDupSplit<T>(s: seq<T>)
    requires NoDup(s) && s != []
    ensures NoDup(s[..|s| - 1]) && s[|s| - 1] !in s[..|s| - 1]
    ensures s == s[..|s| - 1] + [s[|s| - 1]]
  {
  }

  /** The outcome for one name does not depend on the others: visiting all claims does to this
      one what visiting it alone would do, with at most one write, and leaves a name that is
      not visited alone. */
  lemma {:induction false} VisitIsLocal(x: Ctx, p: Progress, names: seq<string>, m: string)
    requires NoDup(names) && Sound(x)
    ensures
      var q, e, k := Visit(x, p, names), EffectAt(x, p, m), Key(x.ns, m);
      if m in names then
        && Get(q.claims, k) == (if e.claim.Some? then e.claim else Get(p.claims, k))
        && Lookup(q.recs, m) == (if e.entry.Some? then e.entry else Lookup(p.recs, m))
        && q.writes[k] == p.writes[k] + (if e.claim.Some? then 1 else 0)
      else
        Get(q.claims, k) == Get(p.claims, k) && Lookup(q.recs, m) == Lookup(p.recs, m) && q.writes[k] == p.writes[k]
  {
    if names != [] {
      NoDupSplit(names);
      var n := |names| - 1;
      VisitIsLocal(x, p, names[..n], m);
      VisitIsLocal(x, p, names[..n], names[n]);
      var q := Visit(x, p, names[..n]);
      EntryName(q.recs, names[n]);
      var e := EffectAt(x, q, names[n]);
      if e.entry.Some? { SetRecLookup(q.recs, names[n], e.entry.value, m); }
    }
  }

  /** Claims of other namespaces are out of reach, and no claim appears or disappears. */
  lemma {:induction false} VisitFrame(x: Ctx, p: Progress, names: seq<string>, k: Key)
    requires Sound(x)
    ensures
      var q := Visit(x, p, names);
      && q.claims.Keys == p.claims.Keys
      && (k.ns != x.ns || k.name !in names || Blind(x, k.name) ==>
            Get(q.claims, k) == Get(p.claims, k) && q.writes[k] == p.writes[k])
  {
    if names != [] {
      var n := |names| - 1;
      assert names == names[..n] + [names[n]];
      VisitFrame(x, p, names[..n], k);
    }
  }

  lemma {:induction false} VisitDistinct(x: Ctx, p: Progress, names: seq<string>)
    requires Distinct(p.recs) && Sound(x)
    ensures Distinct(Visit(x, p, names).recs)
  {
    if names != [] {
      var n := |names| - 1;
      VisitDistinct(x, p, names[..n]);
      var q := Visit(x, p, names[..n]);
      EntryName(q.recs, names[n]);
      var e := EffectAt(x, q, names[n]);
      if e.entry.Some? { SetRecDistinct(q.recs, names[n], e.entry.value); }
    }
  }

  /** The visit reads no claim but the ones it is not blind to. */
  lemma {:induction false} VisitReadsOwn(
    x: Ctx, p: Progress, claims: map<Key, Claim>, names: seq<string>, all: seq<string>)
    requires forall n :: n in names ==> n in all
    requires forall n :: n in all && !Blind(x, n) ==> Get(p.claims, Key(x.ns, n)) == Get(claims, Key(x.ns, n))
    ensures
      var a, b := Visit(x, p, names), Visit(x, p.(claims := claims), names);
      && a.recs == b.recs && a.resizing == b.resizing && a.recommending == b.recommending && a.writes == b.writes
      && (forall n :: n in all && !Blind(x, n) ==> Get(a.claims, Key(x.ns, n)) == Get(b.claims, Key(x.ns, n)))
  {
    if names != [] {
      var n := |names| - 1;
      assert names == names[..n] + [names[n]];
      VisitReadsOwn(x, p, claims, names[..n], all);
      var a, b := Visit(x, p, names[..n]), Visit(x, p.(claims := claims), names[..n]);
      assert EffectAt(x, a, names[n]) == EffectAt(x, b, names[n]);
    }
  }

  // ----- the order in which claims are fetched does not show -----

  function Flat<T, U>(xs: seq<T>, f: T -> seq<U>): seq<U> {
    if xs == [] then [] else Flat(xs[..|xs| - 1], f) + f(xs[|xs| - 1])
  }

  lemma {:induction false} FlatEmptyIff<T, U>(xs: seq<T>, f: T -> seq<U>)
    ensures Flat(xs, f) == [] <==> forall x :: x in xs ==> f(x) == []
  {
    if xs != [] {
      var n := |xs| - 1;
      assert xs == xs[..n] + [xs[n]];
      FlatEmptyIff(xs[..n], f);
    }
  }

  lemma {:induction false} FlatWithout<T, U>(xs: seq<T>, f: T -> seq<U>, i: nat)
    requires i < |xs|
    ensures multiset(Flat(xs, f)) == multiset(Flat(xs[..i] + xs[i + 1..], f)) + multiset(f(xs[i]))
  {
    var n := |xs| - 1;
    var ys := xs[..i] + xs[i + 1..];
    assert Flat(xs, f) == Flat(xs[..n], f) + f(xs[n]);
    if i == n {
      assert ys == xs[..n];
    } else {
      var zs := xs[..n][..i] + xs[..n][i + 1..];
      FlatWithout(xs[..n], f, i);
      assert ys[..|ys| - 1] == zs && ys[|ys| - 1] == xs[n];
      assert Flat(ys, f) == Flat(zs, f) + f(xs[n]);
    }
  }

  lemma {:induction false} FlatPermutes<T, U>(xs: seq<T>, ys: seq<T>, f: T -> seq<U>)
    requires multiset(xs) == multiset(ys)
    ensures multiset(Flat(xs, f)) == multiset(Flat(ys, f))
    decreases |xs|
  {
    assert |xs| == |multiset(xs)| == |multiset(ys)| == |ys|;
    if xs != [] {
      var n := |xs| - 1;
      assert xs == xs[..n] + [xs[n]];
      assert xs[n] in multiset(ys);
      var i :| 0 <= i < |ys| && ys[i] == xs[n];
      var rest := ys[..i] + ys[i + 1..];
      assert ys == ys[..i] + [ys[i]] + ys[i + 1..];
      assert multiset(ys) == multiset(rest) + multiset{ys[i]};
      assert multiset(xs[..n]) == multiset(xs) - multiset{xs[n]};
      assert multiset(rest) == multiset(ys) - multiset{ys[i]};
      FlatPermutes(xs[..n], rest, f);
      FlatWithout(ys, f, i);
    }
  }

  lemma EffectUnchanged(x: Ctx, p: Progress, names: seq<string>, m: string)
    requires NoDup(names) && Sound(x) && m !in names
    ensures EffectAt(x, Visit(x, p, names), m) == EffectAt(x, p, m)
  {
    VisitIsLocal(x, p, names, m);
  }

  function ResizingAt(x: Ctx, p: Progress): string -> seq<Condition> { n => EffectAt(x, p, n).resizing }

  function RecommendingAt(x: Ctx, p: Progress): string -> seq<Condition> { n => EffectAt(x, p, n).recommending }

  lemma {:induction false} VisitNotes(x: Ctx, p: Progress, names: seq<string>)
    requires NoDup(names) && Sound(x)
    ensures Visit(x, p, names).resizing == p.resizing + Flat(names, ResizingAt(x, p))
    ensures Visit(x, p, names).recommending == p.recommending + Flat(names, RecommendingAt(x, p))
  {
    if names != [] {
      NoDupSplit(names);
      var n := |names| - 1;
      VisitNotes(x, p, names[..n]);
      EffectUnchanged(x, p, names[..n], names[n]);
      var e := EffectAt(x, p, names[n]);
      var q := Visit(x, p, names[..n]);
      assert Visit(x, p, names) == Apply(x, q, names[n], e);
      assert ResizingAt(x, p)(names[n]) == e.resizing && RecommendingAt(x, p)(names[n]) == e.recommending;
    }
  }

  /** Fetching the same claims in another order leads to the same claims, the same writes, the
      same published list and the same published conditions, word for word. */
  lemma FetchOrderIrrelevant(x: Ctx, p: Progress, a: seq<string>, b: seq<string>)
    requires NoDup(a) && NoDup(b) && multiset(a) == multiset(b) && Distinct(p.recs) && Sound(x)
    ensures
      var qa, qb := Visit(x, p, a), Visit(x, p, b);
      && qa.claims == qb.claims && qa.writes == qb.writes
      && Sort(qa.recs, RecName) == Sort(qb.recs, RecName)
      && AggregateResizing(qa.resizing) == AggregateResizing(qb.resizing)
      && AggregateRecommendations(qa.recommending) == AggregateRecommendations(qb.recommending)
  {
    var qa, qb := Visit(x, p, a), Visit(x, p, b);
    forall n ensures n in a <==> n in b {
      assert n in a <==> n in multiset(a);
      assert n in b <==> n in multiset(b);
    }
    forall k ensures Get(qa.claims, k) == Get(qb.claims, k) && qa.writes[k] == qb.writes[k] {
      VisitFrame(x, p, a, k);
      VisitFrame(x, p, b, k);
      VisitIsLocal(x, p, a, k.name);
      VisitIsLocal(x, p, b, k.name);
    }
    SameGetsSameMap(qa.claims, qb.claims);
    forall n ensures Lookup(qa.recs, n) == Lookup(qb.recs, n) {
      VisitIsLocal(x, p, a, n);
      VisitIsLocal(x, p, b, n);
    }
    VisitDistinct(x, p, a);
    VisitDistinct(x, p, b);
    SameLookupsSameSort(qa.recs, qb.recs);
    NotesPermute(x, p, a, b);
  }

  lemma NotesPermute(x: Ctx, p: Progress, a: seq<string>, b: seq<string>)
    requires NoDup(a) && NoDup(b) && multiset(a) == multiset(b) && Sound(x)
    ensures AggregateResizing(Visit(x, p, a).resizing) == AggregateResizing(Visit(x, p, b).resizing)
    ensures AggregateRecommendations(Visit(x, p, a).recommending)
            == AggregateRecommendations(Visit(x, p, b).recommending)
  {
    VisitNotes(x, p, a);
    VisitNotes(x, p, b);
    FlatPermutes(a, b, ResizingAt(x, p));
    FlatPermutes(a, b, RecommendingAt(x, p));
    AggregationIgnoresOrder(Visit(x, p, a).resizing, Visit(x, p, b).resizing);
    AggregationIgnoresOrder(Visit(x, p, a).recommending, Visit(x, p, b).recommending);
  }

  lemma SameGetsSameMap<V>(a: map<Key, V>, b: map<Key, V>)
    requires forall k :: Get(a, k) == Get(b, k)
    ensures a == b
  {
    forall k ensures k in a <==> k in b { assert Get(a, k) == Get(b, k); }
    forall k | k in a ensures a[k] == b[k] { assert Get(a, k) == Get(b, k); }
  }
}
