/** The periodic runner: the loops of a tick over mutable cluster state, proved against the
    functions of Tick and Ownership. */
module Periodic {
  import opened Api
  import opened ClaimLogic
  import opened Conditions
  import opened Ordering
  import opened Recommendations
  import opened Visiting
  import opened Tick
  import opened Ownership

  class Runner {
    const name: string
    var claims: map<Key, Claim>
    var pvcas: map<Key, Pvca>
    var writes: multiset<Key>

    constructor (name: string, claims: map<Key, Claim>, pvcas: map<Key, Pvca>)
      ensures this.name == name && State() == Cluster(claims, pvcas, multiset{})
    {
      this.name, this.claims, this.pvcas, this.writes := name, claims, pvcas, multiset{};
    }

    ghost function State(): Cluster
      reads this
    {
      Cluster(claims, pvcas, writes)
    }

    /** Store conditions and sorted recommendations, unless the patch fails. */
    method SetStatus(w: World, key: Key, recommending: Condition, resizing: Condition, recs: seq<Rec>)
      requires key in pvcas
      modifies this`pvcas
      ensures pvcas ==
                if !w.statusSaved(key) then old(pvcas)
                else old(pvcas)[key := old(pvcas)[key].(
                       conditions := Published(Published(old(pvcas)[key].conditions, resizing), recommending),
                       recs := Sort(recs, RecName))]
    {
      var updated := [resizing, recommending];
      var conditions := pvcas[key].conditions;
      for i := 0 to 2
        invariant conditions == if i == 0 then pvcas[key].conditions
                                else if i == 1 then Published(pvcas[key].conditions, resizing)
                                else Published(Published(pvcas[key].conditions, resizing), recommending)
        invariant unchanged(this)
      {
        if updated[i].message == "" {
          conditions := Removed(conditions, updated[i].kind);
        } else {
          conditions := Put(conditions, updated[i]);
        }
      }
      if w.statusSaved(key) {
        pvcas := pvcas[key := pvcas[key].(conditions := conditions, recs := Sort(recs, RecName))];
      }
    }

    /** The forward map from objects to fetched claims and the reverse map to owners; objects
        whose claims cannot be fetched lose their entries. */
    method FetchPVCsForPVCAs(w: World, list: seq<Key>) returns (forward: map<Key, seq<string>>, owners: Owners)
      requires forall k :: k in list ==> k in pvcas
      modifies this`pvcas
      ensures pvcas == FetchPhase(w, old(pvcas), list)
      ensures forall k :: k in forward <==> k in list && w.fetch(k).Fetched?
      ensures forall k :: k in forward ==> forward[k] == w.fetch(k).names
      ensures Exact(w, list, owners)
    {
      forward, owners := map[], map[];
      for i := 0 to |list|
        invariant pvcas == FetchPhase(w, old(pvcas), list[..i])
        invariant forall k :: k in forward <==> k in list[..i] && w.fetch(k).Fetched?
        invariant forall k :: k in forward ==> forward[k] == w.fetch(k).names
        invariant Exact(w, list[..i], owners)
      {
        var key := list[i];
        assert list[..i + 1] == list[..i] + [key] && list[..i + 1][..i] == list[..i];
        match w.fetch(key)
        case Fetched(names) =>
          forward := forward[key := names];
          owners := AddOwner(w, list, i, key, names, owners);
        case _ =>
          ClearStatus(w, key);
      }
      assert list[..|list|] == list;
    }

    /** The status of an object whose claims cannot be fetched. */
    method ClearStatus(w: World, key: Key)
      requires key in pvcas && !w.fetch(key).Fetched?
      modifies this`pvcas
      ensures pvcas == FetchOne(w, old(pvcas), key)
    {
      var reason := FetchReason(w.fetch(key));
      var failing := Condition(RecommendationAvailable, False, reason, w.text(key, FetchProblem));
      var resizing := Condition(ResizingType, Unknown, NoReason, "");
      if Has(pvcas[key].conditions, ResizingType) {
        resizing := Condition(ResizingType, Unknown, reason, w.text(key, ResizingUnknown));
      }
      SetStatus(w, key, failing, resizing, []);
    }

    method AddOwner(w: World, ghost list: seq<Key>, ghost i: nat, key: Key, names: seq<string>, before: Owners)
      returns (owners: Owners)
      requires i < |list| && list[i] == key && w.fetch(key) == Fetched(names)
      requires Exact(w, list[..i], before)
      ensures Exact(w, list[..i + 1], owners)
    {
      owners := before;
      for j := 0 to |names|
        invariant forall k ::
                    OwnersAt(owners, k) == Claimed(OwnersOf(w, list[..i], k), key, names[..j], k)
      {
        var k := Key(key.ns, names[j]);
        assert names[..j + 1][..j] == names[..j];
        owners := owners[k := OwnersAt(owners, k) + [key]];
      }
      assert names[..|names|] == names;
      assert list[..i + 1][..i] == list[..i];
    }

    /** One claim of one object: skip it, or judge it and patch it. */
    method ReconcileClaim(w: World, rules: seq<Rule>, holders: seq<Key>, k: Key, recs: seq<Rec>,
                          resizing: ResizingAggregator, recommending: RecommendationsAggregator)
      returns (r: seq<Rec>)
      requires recommending.Valid()
      modifies this`claims, this`writes, resizing, recommending
      ensures recommending.Valid()
      ensures
        var e := EffectOn(w, rules, holders, k, Get(old(claims), k), GetOrCreate(recs, k.name));
        && claims == (if e.claim.Some? then old(claims)[k := e.claim.value] else old(claims))
        && r == (if e.entry.Some? then SetRec(recs, k.name, e.entry.value) else recs)
        && resizing.conditions == old(resizing.conditions) + e.resizing
        && recommending.conditions == old(recommending.conditions) + e.recommending
        && writes == (if e.claim.Some? then old(writes) + multiset{k} else old(writes))
    {
      r := recs;
      if |holders| > 1 {
        recommending.AddCondition(Failing(w, k, IsContested(holders))[0]);
        return;
      }
      if k !in claims || !w.readable(k) {
        recommending.AddCondition(Failing(w, k, IsUnreadable)[0]);
        return;
      }
      match GetVolumePolicy(w.glob, k.name, rules)
      case BadPattern =>
        recommending.AddCondition(Failing(w, k, PatternInvalid)[0]);
      case NoPolicy =>
      case Matched(policy) =>
        match Judge(w.recovery, policy, claims[k], GetOrCreate(recs, k.name), Get(w.metrics, k), w.judgedAt(k))
        case Rejected(cause) =>
          recommending.AddCondition(Failing(w, k, IsSkipped(cause))[0]);
        case Accepted(v) =>
          r := Act(w, k, v, recs, resizing);
    }

    /** Carry out a verdict: patch the claim if asked to, and record the entry. */
    method Act(w: World, k: Key, v: Verdict, recs: seq<Rec>, resizing: ResizingAggregator) returns (r: seq<Rec>)
      requires k in claims
      modifies this`claims, this`writes, resizing
      ensures
        var e := Perform(w, k, old(claims)[k], v);
        && claims == (if e.claim.Some? then old(claims)[k := e.claim.value] else old(claims))
        && e.entry.Some? && r == SetRec(recs, k.name, e.entry.value)
        && resizing.conditions == old(resizing.conditions) + e.resizing
        && writes == (if e.claim.Some? then old(writes) + multiset{k} else old(writes))
    {
      var entry := v.rec;
      match v {
        case Hold(_, note) =>
          if note.Some? {
            resizing.AddCondition(ResizingNote(w, k, note.value.status, AboutNote(note.value))[0]);
          }
        case Reduce(rec, target) =>
          match w.patch(k) {
            case Applied =>
              claims, writes := claims[k := claims[k].(spec := target)], writes + multiset{k};
              entry := rec.(target := Some(target));
              resizing.AddCondition(ResizingNote(w, k, True, WasReduced)[0]);
            case Conflict =>
            case Refused =>
              resizing.AddCondition(ResizingNote(w, k, False, ReduceRefused)[0]);
          }
        case Grow(rec, target, reason) =>
          if w.patch(k) == Applied {
            claims := claims[k := claims[k].(prev := Prev(claims[k].spec), spec := target)];
            writes := writes + multiset{k};
            entry := rec.(target := Some(target), lastResize := Some(w.stampedAt(k)));
            resizing.AddCondition(ResizingNote(w, k, True, WasGrown(reason))[0]);
          } else {
            resizing.AddCondition(ResizingNote(w, k, False, GrowRefused)[0]);
          }
      }
      r := SetVolumeRecommendation(recs, k.name, entry);
    }

    /** Keep the surviving entries, visit every claim, publish the outcome. */
    method ReconcilePVCA(w: World, key: Key, names: seq<string>, owners: Owners)
      requires key in pvcas && w.fetch(key) == Fetched(names)
      modifies this
      ensures State() == ReconcileOne(w, owners, old(State()), key)
    {
      var resizing := new ResizingAggregator();
      var recommending := new RecommendationsAggregator();
      var recs := SurvivingEntries(w, pvcas[key], names);
      recs := VisitClaims(w, key, names, owners, recs, resizing, recommending);
      var recommendation := recommending.GetAggregatedCondition();
      var resize := resizing.GetAggregatedCondition();
      SetStatus(w, key, recommendation, resize, recs);
    }

    method VisitClaims(w: World, key: Key, names: seq<string>, owners: Owners, recs: seq<Rec>,
                       resizing: ResizingAggregator, recommending: RecommendationsAggregator)
      returns (r: seq<Rec>)
      requires key in pvcas && resizing.conditions == [] && recommending.conditions == []
      modifies this`claims, this`writes, resizing, recommending
      ensures recommending.Valid()
      ensures
        var x := CtxOf(w, key.ns, pvcas[key].rules, owners);
        var q := Visit(x, Progress(old(claims), recs, [], [], multiset{}), names);
        && claims == q.claims && r == q.recs && writes == old(writes) + q.writes
        && resizing.conditions == q.resizing && recommending.conditions == q.recommending
    {
      r := recs;
      var rules := pvcas[key].rules;
      ghost var x := CtxOf(w, key.ns, rules, owners);
      ghost var p := Progress(claims, recs, [], [], multiset{});
      for i := 0 to |names|
        invariant recommending.Valid()
        invariant
          var q := Visit(x, p, names[..i]);
          && claims == q.claims && r == q.recs && writes == old(writes) + q.writes
          && resizing.conditions == q.resizing && recommending.conditions == q.recommending
      {
        var k := Key(key.ns, names[i]);
        VisitNext(w, key.ns, rules, owners, p, names, i);
        r := ReconcileClaim(w, rules, OwnersAt(owners, k), k, r, resizing, recommending);
      }
      assert names[..|names|] == names;
    }

    method SurvivingEntries(w: World, pvca: Pvca, names: seq<string>) returns (recs: seq<Rec>)
      ensures recs == Filtered(pvca.recs, Survives(w, pvca.rules, names))
    {
      recs := [];
      for i := 0 to |pvca.recs|
        invariant recs == Filtered(pvca.recs[..i], Survives(w, pvca.rules, names))
      {
        var r := pvca.recs[i];
        assert pvca.recs[..i + 1][..i] == pvca.recs[..i];
        if r.name in names && GetVolumePolicy(w.glob, r.name, pvca.rules).Matched? {
          recs := recs + [r];
        }
      }
      assert pvca.recs[..|pvca.recs|] == pvca.recs;
    }

    /** A tick. `listed` is the answer to listing this autoscaler's objects, None if the listing
        fails. The fetched objects are taken in an arbitrary order; the order that was taken and
        the ownership map are returned for the specification only. */
    method ReconcileAll(w: World, listed: Option<seq<Key>>, metricsAvailable: bool)
      returns (ok: bool, ghost owners: Owners, ghost order: seq<Key>)
      requires listed.Some? ==>
                 && NoDup(listed.value)
                 && forall k :: k in listed.value <==> k in pvcas && pvcas[k].autoscaler == name
      requires forall k :: k in pvcas && w.fetch(k).Fetched? ==> NoDup(w.fetch(k).names)
      modifies this
      ensures ok <==> listed.Some? && (listed.value == [] || metricsAvailable)
      ensures !ok ==> State() == old(State())
      ensures ok ==> Plan(w, old(State()), name, listed.value, owners, order)
                     && State() == TickAll(w, old(State()), listed.value, owners, order)
    {
      owners, order := map[], [];
      if listed.None? {
        return false, owners, order;
      }
      var list := listed.value;
      if |list| == 0 {
        EmptyTick(w, State(), name);
        return true, owners, order;
      }
      if !metricsAvailable {
        return false, owners, order;
      }
      var forward, reverse := FetchPVCsForPVCAs(w, list);
      owners := reverse;
      order := ReconcileFetched(w, forward, reverse);
      FullTick(w, old(State()), name, list, forward, owners, order);
      ok := true;
    }

    /** Take the objects of the forward map one by one, in whatever order it yields them. */
    method ReconcileFetched(w: World, forward: map<Key, seq<string>>, owners: Owners) returns (ghost order: seq<Key>)
      requires forall k :: k in forward ==> k in pvcas && w.fetch(k) == Fetched(forward[k])
      modifies this
      ensures Reconcilable(w, old(State()), order) && forall k :: k in order <==> k in forward
      ensures State() == InOrder(w, owners, old(State()), order)
    {
      order := [];
      var todo := forward.Keys;
      while todo != {}
        invariant todo <= forward.Keys
        invariant Reconcilable(w, old(State()), order) && forall k :: k in order <==> k in forward && k !in todo
        invariant State() == InOrder(w, owners, old(State()), order)
        decreases |todo|
      {
        var key :| key in todo;
        InOrderThen(w, owners, old(State()), order, key);
        ReconcilePVCA(w, key, forward[key], owners);
        order, todo := order + [key], todo - {key};
      }
    }
  }

  /** Without objects there is nothing to do. */
  lemma EmptyTick(w: World, s: Cluster, name: string)
    requires forall k :: k in s.pvcas ==> s.pvcas[k].autoscaler != name
    ensures Plan(w, s, name, [], map[], []) && TickAll(w, s, [], map[], []) == s
  {
    assert forall k :: OwnersOf(w, [], k) == [];
  }

  /** The fetched objects, in the order they were taken, follow a plan. */
  lemma FullTick(
    w: World, s: Cluster, name: string, list: seq<Key>, forward: map<Key, seq<string>>, owners: Owners, order: seq<Key>)
    requires NoDup(list) && (forall k :: k in list <==> k in s.pvcas && s.pvcas[k].autoscaler == name)
    requires forall k :: k in s.pvcas && w.fetch(k).Fetched? ==> NoDup(w.fetch(k).names)
    requires Exact(w, list, owners) && forall k :: k in forward <==> k in list && w.fetch(k).Fetched?
    requires NoDup(order) && forall k :: k in order <==> k in forward
    ensures Plan(w, s, name, list, owners, order)
  {
  }

  lemma VisitNext(w: World, ns: string, rules: seq<Rule>, owners: Owners, p: Progress, names: seq<string>, i: nat)
    requires i < |names|
    ensures
      var x, k := CtxOf(w, ns, rules, owners), Key(ns, names[i]);
      var q := Visit(x, p, names[..i]);
      var e := EffectOn(w, rules, OwnersAt(owners, k), k, Get(q.claims, k), GetOrCreate(q.recs, k.name));
      Visit(x, p, names[..i + 1]) == Apply(x, q, names[i], e)
  {
    assert names[..i + 1][..i] == names[..i];
  }

  lemma InOrderThen(w: World, owners: Owners, s: Cluster, order: seq<Key>, key: Key)
    requires Reconcilable(w, s, order) && key in s.pvcas && key !in order && w.fetch(key).Fetched?
    ensures Reconcilable(w, s, order + [key])
    ensures InOrder(w, owners, s, order + [key]) == ReconcileOne(w, owners, InOrder(w, owners, s, order), key)
  {
  }
}
