/** What a tick writes and what it says: claim by claim, for the status of each object, and over
    runs. */
module Outcomes {
  import opened Api
  import opened Sizing
  import opened Recovery
  import opened ClaimLogic
  import opened Conditions
  import opened Visiting
  import opened Tick
  import opened Ownership
  import opened ClusterCooldown

  // ----- one claim -----

  /** The claim is fetched by one object only, can be read and has a policy. */
  predicate Handled(w: World, rules: seq<Rule>, holders: seq<Key>, k: Key, claim: Option<Claim>) {
    |holders| <= 1 && claim.Some? && w.readable(k) && GetVolumePolicy(w.glob, k.name, rules).Matched?
  }

  ghost predicate ValidRules(w: World, rules: seq<Rule>, k: Key) {
    var l := GetVolumePolicy(w.glob, k.name, rules); l.Matched? ==> ValidPolicy(l.policy)
  }

  /** The single condition of this kind, status and reason. */
  predicate Says(cs: seq<Condition>, kind: ConditionType, status: Status, reason: ReasonCode) {
    |cs| == 1 && cs[0].kind == kind && cs[0].status == status && cs[0].reason == reason
  }

  lemma HandledEffect(w: World, rules: seq<Rule>, holders: seq<Key>, k: Key, c: Claim, entry: Rec)
    requires Handled(w, rules, holders, k, Some(c))
    ensures
      var p := GetVolumePolicy(w.glob, k.name, rules).policy;
      var j := Judge(w.recovery, p, c, entry, Get(w.metrics, k), w.judgedAt(k));
      EffectOn(w, rules, holders, k, Some(c), entry) ==
      if j.Accepted? then Perform(w, k, c, j.verdict) else Effect(None, None, [], Failing(w, k, IsSkipped(j.cause)))
  {
  }

  /** A claim is patched exactly when it is handled, a smaller or a larger request is called for,
      and the patch is applied; the new request is the half step or the policy's step. It is
      recorded exactly when it is handled, eligible and has a usable report. */
  lemma WrittenIff(w: World, rules: seq<Rule>, holders: seq<Key>, k: Key, claim: Option<Claim>, entry: Rec)
    requires ValidRules(w, rules, k)
    ensures
      var e := EffectOn(w, rules, holders, k, claim, entry);
      var l, info := GetVolumePolicy(w.glob, k.name, rules), Get(w.metrics, k);
      && (e.claim.Some? <==>
            && Handled(w, rules, holders, k, claim) && w.patch(k) == Applied
            && (|| CallsForLess(w.recovery, l.policy, claim.value, info)
                || CallsForMore(l.policy, claim.value, entry, info, w.judgedAt(k))))
      && (e.claim.Some? ==>
            if ShouldRecover(claim.value) then Reduced(claim.value.status, claim.value.spec) == Some(e.claim.value.spec)
            else IsScaleUp(e.claim.value.spec, claim.value.spec, l.policy))
      && (e.entry.Some? <==>
            Handled(w, rules, holders, k, claim) && Eligible(l.policy, claim.value) && Usable(claim.value, info))
  {
    if Handled(w, rules, holders, k, claim) {
      var p, c, info := GetVolumePolicy(w.glob, k.name, rules).policy, claim.value, Get(w.metrics, k);
      HandledEffect(w, rules, holders, k, c, entry);
      RecordedExactly(w.recovery, p, c, entry, info, w.judgedAt(k));
      ReduceIff(w.recovery, p, c, entry, info, w.judgedAt(k));
      GrowIff(w.recovery, p, c, entry, info, w.judgedAt(k));
    } else {
      NotHandled(w, rules, holders, k, claim, entry);
    }
  }

  /** The entry recorded for a claim: the current size and figures; as target the new request after
      a patch, the size that a resize would ask for under strategy Off, and otherwise the one it
      had, or the request if it had none. */
  lemma EntryExactly(w: World, rules: seq<Rule>, holders: seq<Key>, k: Key, claim: Option<Claim>, entry: Rec)
    requires ValidRules(w, rules, k) && EffectOn(w, rules, holders, k, claim, entry).entry.Some?
    ensures Handled(w, rules, holders, k, claim) && k in w.metrics
    ensures
      var e := EffectOn(w, rules, holders, k, claim, entry);
      var p, c, i, r := GetVolumePolicy(w.glob, k.name, rules).policy, claim.value, w.metrics[k], e.entry.value;
      && r.current == Some(c.status)
      && r.usedSpace == UsedPercent(i.availBytes, i.capBytes) && r.usedInodes == UsedPercent(i.availInodes, i.capInodes)
      && if e.claim.Some? then r.target == Some(e.claim.value.spec)
         else if p.strategy == Off && WantsMore(p, c, Some(i)) && p.maxCapacity - c.spec >= GI then
           r.target.Some? && IsScaleUp(r.target.value, c.spec, p)
         else r.target == if entry.target.Some? then entry.target else Some(c.spec)
  {
    WrittenIff(w, rules, holders, k, claim, entry);
    var p, c, info := GetVolumePolicy(w.glob, k.name, rules).policy, claim.value, Get(w.metrics, k);
    HandledEffect(w, rules, holders, k, c, entry);
    RecordedExactly(w.recovery, p, c, entry, info, w.judgedAt(k));
    if p.strategy == Off { OffTargetExactly(w.recovery, p, c, entry, info, w.judgedAt(k)); }
  }

  lemma NotHandled(w: World, rules: seq<Rule>, holders: seq<Key>, k: Key, claim: Option<Claim>, entry: Rec)
    requires !Handled(w, rules, holders, k, claim)
    ensures
      var e := EffectOn(w, rules, holders, k, claim, entry);
      e.claim.None? && e.entry.None? && e.resizing == []
  {
  }

  /** Why a claim fails: contested, unreadable, a bad pattern or an ineligible claim, or an unusable
      report; claims without a policy are passed over in silence. */
  lemma FailureExactly(w: World, rules: seq<Rule>, holders: seq<Key>, k: Key, claim: Option<Claim>, entry: Rec)
    ensures
      var cs := EffectOn(w, rules, holders, k, claim, entry).recommending;
      var l, info := GetVolumePolicy(w.glob, k.name, rules), Get(w.metrics, k);
      var kind, sole, read := RecommendationAvailable, |holders| <= 1, claim.Some? && w.readable(k);
      && (Says(cs, kind, False, AmbiguousPVCA) <==> !sole)
      && (Says(cs, kind, False, PVCFetchError) <==> sole && !read)
      && (Says(cs, kind, False, RecommendationError) <==>
            sole && read && (l.BadPattern? || (l.Matched? && !Eligible(l.policy, claim.value))))
      && (Says(cs, kind, False, MetricsFetchError) <==>
            sole && read && l.Matched? && Eligible(l.policy, claim.value) && !Usable(claim.value, info))
      && (cs == [] <==>
            && sole && read
            && (l.NoPolicy? || (l.Matched? && Eligible(l.policy, claim.value) && Usable(claim.value, info))))
  {
    if Handled(w, rules, holders, k, claim) {
      var p, c, info := GetVolumePolicy(w.glob, k.name, rules).policy, claim.value, Get(w.metrics, k);
      HandledEffect(w, rules, holders, k, c, entry);
      RecordedExactly(w.recovery, p, c, entry, info, w.judgedAt(k));
      ObjectionExactly(p, c);
    }
  }

  /** The claim would grow, were it not for the cooldown. */
  predicate HeldBack(p: Policy, c: Claim, entry: Rec, info: Option<VolumeInfo>, now: int) {
    WantsMore(p, c, info) && p.strategy != Off && p.maxCapacity - c.spec >= GI && StillCooling(p, entry, now)
  }

  /** The claim wants more than the maximum allows. */
  predicate Full(p: Policy, c: Claim, info: Option<VolumeInfo>) {
    WantsMore(p, c, info) && p.strategy != Off && p.maxCapacity - c.spec < GI
  }

  /** A resize is under way on a judged claim. */
  predicate UnderWay(p: Policy, c: Claim, info: Option<VolumeInfo>) {
    Eligible(p, c) && Usable(c, info) && !ShouldRecover(c) && Busy(c)
  }

  /** What is said about the resizing of a handled claim. */
  lemma ResizingExactly(w: World, rules: seq<Rule>, holders: seq<Key>, k: Key, c: Claim, entry: Rec)
    requires Handled(w, rules, holders, k, Some(c)) && ValidRules(w, rules, k)
    ensures
      var cs := EffectOn(w, rules, holders, k, Some(c), entry).resizing;
      var p, info, now := GetVolumePolicy(w.glob, k.name, rules).policy, Get(w.metrics, k), w.judgedAt(k);
      var less, more := CallsForLess(w.recovery, p, c, info), CallsForMore(p, c, entry, info, now);
      var unclear := !ShowsResize(c) && c.prev == BadAnnotation;
      && (Says(cs, ResizingType, True, ResizeFailureRecovery) <==> less && w.patch(k) == Applied)
      && (Says(cs, ResizingType, False, ResizeFailureRecovery) <==> less && w.patch(k) == Refused)
      && (Says(cs, ResizingType, False, ResizeCooldown) <==> HeldBack(p, c, entry, info, now))
      && (Says(cs, ResizingType, True, Reconcile) <==>
            (more && w.patch(k) == Applied) || (UnderWay(p, c, info) && !unclear))
      && (Says(cs, ResizingType, False, Reconcile) <==> (more && w.patch(k) != Applied) || Full(p, c, info))
      && (Says(cs, ResizingType, Unknown, Reconcile) <==> UnderWay(p, c, info) && unclear)
      && (cs == [] <==>
            !(|| (less && w.patch(k) != Conflict) || more || HeldBack(p, c, entry, info, now)
              || Full(p, c, info) || UnderWay(p, c, info)))
  {
    var p, info, now := GetVolumePolicy(w.glob, k.name, rules).policy, Get(w.metrics, k), w.judgedAt(k);
    HandledEffect(w, rules, holders, k, c, entry);
    RecordedExactly(w.recovery, p, c, entry, info, now);
    ReduceIff(w.recovery, p, c, entry, info, now);
    GrowIff(w.recovery, p, c, entry, info, now);
    var j := Judge(w.recovery, p, c, entry, info, now);
    if j.Accepted? {
      PerformSays(w, k, c, j.verdict);
      if j.verdict.Hold? { NoteExactly(w.recovery, p, c, entry, info, now); }
    }
  }

  lemma PerformSays(w: World, k: Key, c: Claim, v: Verdict)
    ensures
      var cs := Perform(w, k, c, v).resizing;
      match v
      case Hold(_, note) =>
        if note.None? then cs == []
        else Says(cs, ResizingType, note.value.status,
                  if note.value.remark == CoolingDown then ResizeCooldown else Reconcile)
      case Reduce(_, _) =>
        if w.patch(k) == Conflict then cs == []
        else Says(cs, ResizingType, if w.patch(k) == Applied then True else False, ResizeFailureRecovery)
      case Grow(_, _, _) => Says(cs, ResizingType, if w.patch(k) == Applied then True else False, Reconcile)
  {
  }

  // ----- the status of an object after a tick -----

  lemma {:induction false} FlatMember<T, U>(xs: seq<T>, f: T -> seq<U>, u: U)
    ensures u in Flat(xs, f) <==> exists x :: x in xs && u in f(x)
  {
    if xs != [] {
      var n := |xs| - 1;
      assert xs == xs[..n] + [xs[n]];
      FlatMember(xs[..n], f, u);
    }
  }

  /** What the object's visit says about one of the claims it fetches. */
  function Said(w: World, owners: Owners, s: Cluster, p: Key): string -> Effect
    requires p in s.pvcas && w.fetch(p).Fetched?
  {
    n => OwnEffect(w, owners, s, p, Key(p.ns, n))
  }

  ghost predicate SomeResizing(w: World, owners: Owners, s: Cluster, p: Key, status: Status)
    requires p in s.pvcas && w.fetch(p).Fetched?
  {
    exists n, x :: n in w.fetch(p).names && x in Said(w, owners, s, p)(n).resizing && x.status == status
  }

  /** The conditions a visit collects are those said about the fetched claims. */
  lemma VisitSays(w: World, owners: Owners, s: Cluster, p: Key)
    requires p in s.pvcas && w.fetch(p).Fetched? && NoDup(w.fetch(p).names)
    ensures
      var names := w.fetch(p).names;
      var q := VisitAll(w, owners, p, s.pvcas[p], names, s.claims);
      && (forall x :: x in q.resizing <==> exists n :: n in names && x in Said(w, owners, s, p)(n).resizing)
      && (q.recommending == [] <==> forall n :: n in names ==> Said(w, owners, s, p)(n).recommending == [])
  {
    var pvca, names := s.pvcas[p], w.fetch(p).names;
    var x, start := CtxOf(w, p.ns, pvca.rules, owners), Start(w, pvca, names, s.claims);
    CtxSound(w, p.ns, pvca.rules, owners);
    VisitNotes(x, start, names);
    FlatEmptyIff(names, RecommendingAt(x, start));
    forall n ensures Said(w, owners, s, p)(n) == EffectAt(x, start, n) {}
    forall y
      ensures y in Flat(names, ResizingAt(x, start)) <==> exists n :: n in names && y in EffectAt(x, start, n).resizing
    {
      FlatMember(names, ResizingAt(x, start), y);
    }
  }

  ghost predicate HasStatus(cs: seq<Condition>, status: Status) { exists x :: x in cs && x.status == status }

  /** At most one condition per kind. RecommendationAvailable is there, and True exactly when all is
      provided. Resizing is there exactly when some claim has one of the three statuses, True
      exactly when some is True, Unknown exactly when none is True or False. */
  ghost predicate Tells(cs: seq<Condition>, provided: bool, yes: bool, no: bool, unknown: bool) {
    && OnePerKind(cs) && Has(cs, RecommendationAvailable) && (Has(cs, ResizingType) <==> yes || no || unknown)
    && forall c :: c in cs ==>
         if c.kind == RecommendationAvailable then c.status == if provided then True else False
         else (c.status == True <==> yes) && (c.status == Unknown <==> !yes && !no)
  }

  ghost predicate TellsOf(cs: seq<Condition>, w: World, owners: Owners, s: Cluster, p: Key)
    requires p in s.pvcas && w.fetch(p).Fetched?
  {
    Tells(cs, AllProvided(w, owners, s, p), SomeResizing(w, owners, s, p, True),
          SomeResizing(w, owners, s, p, False), SomeResizing(w, owners, s, p, Unknown))
  }

  /** No fetched claim fails. */
  ghost predicate AllProvided(w: World, owners: Owners, s: Cluster, p: Key)
    requires p in s.pvcas && w.fetch(p).Fetched?
  {
    forall n :: n in w.fetch(p).names ==> Said(w, owners, s, p)(n).recommending == []
  }

  /** After a tick the status of an object tells of the claims it fetched. */
  lemma StatusAfterTick(w: World, s: Cluster, name: string, list: seq<Key>, owners: Owners, order: seq<Key>, p: Key)
    requires Plan(w, s, name, list, owners, order) && p in order && w.statusSaved(p)
    requires OnePerKind(s.pvcas[p].conditions)
    ensures
      var t := TickAll(w, s, list, owners, order);
      p in t.pvcas && TellsOf(t.pvcas[p].conditions, w, owners, s, p)
  {
    var f := s.(pvcas := FetchPhase(w, s.pvcas, list));
    FetchPhaseAt(w, s.pvcas, list, p);
    PlanDisjoint(w, s, name, list, owners, order);
    AfterTick(w, owners, f, order, p, p);
    VisitTells(w, owners, s, p);
  }

  lemma VisitTells(w: World, owners: Owners, s: Cluster, p: Key)
    requires p in s.pvcas && w.fetch(p).Fetched? && NoDup(w.fetch(p).names) && OnePerKind(s.pvcas[p].conditions)
    ensures
      var q := VisitAll(w, owners, p, s.pvcas[p], w.fetch(p).names, s.claims);
      TellsOf(WithStatus(s.pvcas[p], q).conditions, w, owners, s, p)
  {
    var q := VisitAll(w, owners, p, s.pvcas[p], w.fetch(p).names, s.claims);
    PublishedTells(s.pvcas[p].conditions, q.resizing, q.recommending);
    assert AllProvided(w, owners, s, p) == (q.recommending == []) by { VisitSays(w, owners, s, p); }
    ResizingSaid(w, owners, s, p, True);
    ResizingSaid(w, owners, s, p, False);
    ResizingSaid(w, owners, s, p, Unknown);
  }

  lemma ResizingSaid(w: World, owners: Owners, s: Cluster, p: Key, status: Status)
    requires p in s.pvcas && w.fetch(p).Fetched? && NoDup(w.fetch(p).names)
    ensures
      var q := VisitAll(w, owners, p, s.pvcas[p], w.fetch(p).names, s.claims);
      SomeResizing(w, owners, s, p, status) <==> HasStatus(q.resizing, status)
  {
    VisitSays(w, owners, s, p);
  }

  /** The same about the aggregated conditions. */
  lemma PublishedTells(before: seq<Condition>, resizing: seq<Condition>, recommending: seq<Condition>)
    requires OnePerKind(before)
    ensures
      var after := Published(Published(before, AggregateResizing(resizing)), AggregateRecommendations(recommending));
      Tells(after, recommending == [],
            HasStatus(resizing, True), HasStatus(resizing, False), HasStatus(resizing, Unknown))
  {
    var a, b := AggregateResizing(resizing), AggregateRecommendations(recommending);
    PublishedResizingIff(before, resizing, recommending);
    PublishedExactly(before, a);
    PublishedExactly(Published(before, a), b);
    var after := Published(Published(before, a), b);
    if resizing != [] {
      ResizingStatusIff(resizing);
      assert resizing[0] in resizing;
    } else {
      forall c | c in after ensures c.kind == RecommendationAvailable {
        if c.kind == ResizingType { HasMember(after, c); }
      }
    }
  }

  lemma HasMember(cs: seq<Condition>, c: Condition)
    requires c in cs
    ensures Has(cs, c.kind)
  {
  }

  /** An object whose claims could not be fetched lists nothing after a tick, and its conditions are
      the failure and, if it had a Resizing condition, that one as Unknown. */
  lemma ClearedAfterTick(w: World, s: Cluster, name: string, list: seq<Key>, owners: Owners, order: seq<Key>, p: Key)
    requires Plan(w, s, name, list, owners, order) && p in list && p !in order && w.statusSaved(p)
    requires OnePerKind(s.pvcas[p].conditions) && w.text(p, ResizingUnknown) != "" && w.text(p, FetchProblem) != ""
    ensures
      var t := TickAll(w, s, list, owners, order);
      var reason := if w.fetch(p) == NothingMatched then NoPVCsMatched else PVCFetchError;
      var failing := Condition(RecommendationAvailable, False, reason, w.text(p, FetchProblem));
      var resizing := Condition(ResizingType, Unknown, reason, w.text(p, ResizingUnknown));
      && p in t.pvcas && t.pvcas[p].recs == [] && OnePerKind(t.pvcas[p].conditions)
      && forall c :: c in t.pvcas[p].conditions <==>
           c == failing || (c == resizing && Has(s.pvcas[p].conditions, ResizingType))
  {
    var f := s.(pvcas := FetchPhase(w, s.pvcas, list));
    FetchPhaseAt(w, s.pvcas, list, p);
    UntouchedBefore(w, owners, f, order, p);
    ClearedExactly(w, p, s.pvcas[p]);
  }

  // ----- over runs -----

  ghost predicate AllOnePerKind(s: Cluster, name: string) {
    forall p :: p in s.pvcas && s.pvcas[p].autoscaler == name ==> OnePerKind(s.pvcas[p].conditions)
  }

  /** Edits leave the conditions of this autoscaler's objects alone; new objects have none. */
  ghost predicate KeepsConditions(s: Cluster, name: string, c: Change) {
    c.Edited? ==>
      forall p :: p in c.after.pvcas && c.after.pvcas[p].autoscaler == name ==>
        || (p in s.pvcas && s.pvcas[p].autoscaler == name && c.after.pvcas[p].conditions == s.pvcas[p].conditions)
        || c.after.pvcas[p].conditions == []
  }

  lemma TickKeepsOnePerKind(w: World, s: Cluster, name: string, list: seq<Key>, owners: Owners, order: seq<Key>, p: Key)
    requires Plan(w, s, name, list, owners, order) && p in list && OnePerKind(s.pvcas[p].conditions)
    ensures
      var t := TickAll(w, s, list, owners, order);
      p in t.pvcas && OnePerKind(t.pvcas[p].conditions)
  {
    if !w.statusSaved(p) {
      UnsavedUntouched(w, s, name, list, owners, order, p);
    } else if p in order {
      StatusAfterTick(w, s, name, list, owners, order, p);
    } else {
      var f := s.(pvcas := FetchPhase(w, s.pvcas, list));
      FetchPhaseAt(w, s.pvcas, list, p);
      UntouchedBefore(w, owners, f, order, p);
      ClearedExactly(w, p, s.pvcas[p]);
    }
  }

  lemma ClearedExactly(w: World, p: Key, pvca: Pvca)
    requires OnePerKind(pvca.conditions)
    ensures
      var reason := if w.fetch(p) == NothingMatched then NoPVCsMatched else PVCFetchError;
      var failing := Condition(RecommendationAvailable, False, reason, w.text(p, FetchProblem));
      var resizing := Condition(ResizingType, Unknown, reason, w.text(p, ResizingUnknown));
      var cs := Cleared(w, p, pvca).conditions;
      && OnePerKind(cs)
      && (resizing.message != "" && failing.message != "" ==>
            forall c :: c in cs <==> c == failing || (c == resizing && Has(pvca.conditions, ResizingType)))
  {
    var reason := FetchReason(w.fetch(p));
    var resizing := if Has(pvca.conditions, ResizingType)
                    then Condition(ResizingType, Unknown, reason, w.text(p, ResizingUnknown))
                    else Condition(ResizingType, Unknown, NoReason, "");
    PublishedExactly(pvca.conditions, resizing);
    PublishedExactly(Published(pvca.conditions, resizing),
                     Condition(RecommendationAvailable, False, reason, w.text(p, FetchProblem)));
  }

  /** In every state of every run each object has at most one condition per kind: statuses do not
      pile up. */
  lemma {:induction false} OnePerKindForever(states: seq<Cluster>, changes: seq<Change>, name: string, i: nat)
    requires IsRun(states, changes, name) && i < |states| && AllOnePerKind(states[0], name)
    requires forall j :: 0 <= j < |changes| ==> KeepsConditions(states[j], name, changes[j])
    ensures AllOnePerKind(states[i], name)
  {
    if i > 0 {
      OnePerKindForever(states, changes, name, i - 1);
      var s, c := states[i - 1], changes[i - 1];
      assert Follows(states, changes, name, i - 1) && KeepsConditions(s, name, c);
      if c.Ticked? {
        forall p | p in states[i].pvcas && states[i].pvcas[p].autoscaler == name
          ensures OnePerKind(states[i].pvcas[p].conditions)
        {
          TickKeepsSpecs(c.w, s, name, c.list, c.owners, c.order, p);
          TickKeepsOnePerKind(c.w, s, name, c.list, c.owners, c.order, p);
        }
      }
    }
  }
}
