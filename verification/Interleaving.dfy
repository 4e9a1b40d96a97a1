/** All claims of a cluster at the granularity of API calls: reads, patches that land later, driver
    actions, and claims and autoscaler objects that come and go interleave freely. Cluster runs
    with ticks as single steps are special cases. */
module Interleaving {
  import opened Api
  import opened Recovery
  import opened Visiting
  import opened Tick
  import opened Ownership
  import opened Refinement
  import Runs = ClaimRuns

  type Systems = map<Key, Runs.Sys>

  /** An event of one claim; a driver action; another object becoming responsible, with its own
      entry and clock; a claim that comes or goes. */
  datatype Move =
    | On(k: Key, event: Runs.Event)
    | Drive(k: Key, claim: Claim)
    | Recast(k: Key, rec: Rec, now: int)
    | Appear(k: Key, claim: Claim)
    | Vanish(k: Key)

  /** Moves that make no sense in a state leave it as it is. */
  function Moved(m: Systems, v: Move): Systems {
    match v
    case On(k, e) => if k in m then m[k := Runs.Step(m[k], e)] else m
    case Drive(k, c) =>
      if k in m && DriverStep(m[k].claim, c) then m[k := m[k].(claim := c, version := m[k].version + 1)] else m
    case Recast(k, rec, now) =>
      if k in m && m[k].pending == Runs.Nothing then m[k := m[k].(rec := rec, now := now)] else m
    case Appear(k, c) => if k in m then m else m[k := Runs.Sys(c, 0, FreshRec(k.name), 0, Runs.Nothing)]
    case Vanish(k) => m - {k}
  }

  function Moves(m: Systems, vs: seq<Move>): Systems {
    if vs == [] then m else Moved(Moves(m, vs[..|vs| - 1]), vs[|vs| - 1])
  }

  /** Policies are admissible and allow at most `max`; claims appear idle or unbound. */
  predicate Allowed(v: Move, max: int) {
    && (v.On? && v.event.Look? ==> ValidPolicy(v.event.policy) && v.event.policy.maxCapacity <= max)
    && (v.Appear? ==> Runs.Idle(v.claim) || Runs.Unbound(v.claim))
  }

  ghost predicate AllAllowed(vs: seq<Move>, max: int) { forall i :: 0 <= i < |vs| ==> Allowed(vs[i], max) }

  ghost predicate AllInv(m: Systems, max: int) { forall k :: k in m ==> Runs.Inv(m[k], max) }

  // ----- single flight and bounded writes, everywhere -----

  /** A move keeps the invariant of a claim that is there afterwards. */
  lemma MoveKeepsInv(m: Systems, v: Move, max: int, k: Key)
    requires (k in m ==> Runs.Inv(m[k], max)) && Allowed(v, max) && k in Moved(m, v)
    ensures Runs.Inv(Moved(m, v)[k], max)
  {
    if k in m && v.k == k {
      if v.On? {
        assert Runs.Within([v.event], max);
        Runs.SingleFlightStep(m[k], v.event, max);
      } else if v.Drive? && DriverStep(m[k].claim, v.claim) {
        Runs.DriverBudget(m[k].claim, v.claim, max, 0);
      }
    }
  }

  /** Single flight, for all claims at once and with the driver free to act between any read and
      the patch that rests on it: no claim ever has two expansions outstanding, on a bound claim
      the annotation tells whether there is one, and no request is below the capacity. */
  lemma {:induction false} SingleFlightEverywhere(m: Systems, vs: seq<Move>, max: int)
    requires AllInv(m, max) && AllAllowed(vs, max)
    ensures AllInv(Moves(m, vs), max)
    ensures forall k :: k in Moves(m, vs) ==>
              var c := Moves(m, vs)[k].claim;
              c.status <= c.spec && (Runs.Unbound(c) || (c.prev == Prev(c.status) <==> c.spec != c.status))
  {
    if vs != [] {
      var n := |vs| - 1;
      SingleFlightEverywhere(m, vs[..n], max);
      forall k | k in Moves(m, vs) ensures Runs.Inv(Moves(m, vs)[k], max) {
        MoveKeepsInv(Moves(m, vs[..n]), vs[n], max, k);
      }
    }
  }

  /** The move changes the request of the claim. */
  predicate WritesTo(m: Systems, v: Move, k: Key) { v.On? && v.k == k && k in m && Runs.Wrote(m[k], v.event) }

  ghost function Writes(m: Systems, vs: seq<Move>, k: Key): nat {
    if vs == [] then 0
    else
      var n := |vs| - 1;
      Writes(m, vs[..n], k) + if WritesTo(Moves(m, vs[..n]), vs[n], k) then 1 else 0
  }

  lemma MoveBudget(m: Systems, v: Move, max: int, width: int, k: Key)
    requires k in m && Runs.Inv(m[k], max) && Allowed(v, max) && v != Vanish(k) && Gap(m[k].claim.status, max) <= width
    ensures k in Moved(m, v)
    ensures
      var c, d := m[k].claim, Moved(m, v)[k].claim;
      && Gap(d.status, max) <= width
      && Runs.Budget(d, max, width) + (if WritesTo(m, v, k) then 1 else 0) <= Runs.Budget(c, max, width)
  {
    if v.k == k {
      if v.On? {
        assert Runs.Within([v.event], max);
        Runs.BudgetStep(m[k], v.event, max, width);
      } else if v.Drive? && DriverStep(m[k].claim, v.claim) {
        Runs.DriverBudget(m[k].claim, v.claim, max, width);
      }
    }
  }

  lemma {:induction false} WritesWithinBudget(m: Systems, vs: seq<Move>, max: int, width: int, k: Key)
    requires AllInv(m, max) && AllAllowed(vs, max) && Vanish(k) !in vs
    requires k in m && Gap(m[k].claim.status, max) <= width
    ensures k in Moves(m, vs) && Gap(Moves(m, vs)[k].claim.status, max) <= width
    ensures Writes(m, vs, k) + Runs.Budget(Moves(m, vs)[k].claim, max, width) <= Runs.Budget(m[k].claim, max, width)
  {
    if vs != [] {
      var n := |vs| - 1;
      WritesWithinBudget(m, vs[..n], max, width, k);
      SingleFlightEverywhere(m, vs[..n], max);
      MoveBudget(Moves(m, vs[..n]), vs[n], max, width, k);
    }
  }

  /** No endless oscillation, for every claim of an interleaved run. */
  lemma WritesBoundedEverywhere(m: Systems, vs: seq<Move>, max: int, k: Key)
    requires AllInv(m, max) && AllAllowed(vs, max) && Vanish(k) !in vs
    requires k in m && (Runs.Idle(m[k].claim) || Runs.Unbound(m[k].claim))
    ensures
      var size := m[k].claim.status;
      Writes(m, vs, k) <= (1 + CeilLog2(Gap(size, max))) * Runs.Room(size, max)
  {
    var width := Gap(m[k].claim.status, max);
    WritesWithinBudget(m, vs, max, width, k);
    SingleFlightEverywhere(m, vs, max);
    Runs.BudgetNonNegative(Moves(m, vs)[k].claim, max, width);
  }

  // ----- cluster runs are interleavings -----

  /** The system of the claim is at rest and holds the claim as the cluster has it. */
  predicate Agrees(m: Systems, claims: map<Key, Claim>, k: Key) {
    && (k in m <==> k in claims)
    && (k in m ==> m[k].claim == claims[k] && m[k].pending == Runs.Nothing)
  }

  ghost predicate Represents(m: Systems, s: Cluster) { forall k :: Agrees(m, s.claims, k) }

  lemma {:induction false} MovesAppend(m: Systems, a: seq<Move>, b: seq<Move>)
    ensures Moves(m, a + b) == Moves(Moves(m, a), b)
  {
    if b == [] {
      assert a + b == a;
    } else {
      var n := |b| - 1;
      assert (a + b)[..|a + b| - 1] == a + b[..n];
      MovesAppend(m, a, b[..n]);
    }
  }

  lemma OneMove(m: Systems, v: Move)
    ensures Moves(m, [v]) == Moved(m, v)
  {
    assert [v][..0] == [];
  }

  /** The moves by which a tick acts on a claim. */
  function TickMoves(w: World, policy: Policy, k: Key, entry: Rec): seq<Move>
    requires w.judgedAt(k) <= w.stampedAt(k)
  {
    var es := Events(w, policy, k);
    [Recast(k, entry, w.judgedAt(k)), On(k, es[0]), On(k, es[1]), On(k, es[2])]
  }

  lemma TickMovesRun(m: Systems, w: World, policy: Policy, k: Key, entry: Rec)
    requires w.judgedAt(k) <= w.stampedAt(k) && k in m && m[k].pending == Runs.Nothing
    ensures
      var s := m[k].(rec := entry, now := w.judgedAt(k));
      Moves(m, TickMoves(w, policy, k, entry)) == m[k := Runs.Run(s, Events(w, policy, k))]
  {
    var es, vs := Events(w, policy, k), TickMoves(w, policy, k, entry);
    var s := m[k].(rec := entry, now := w.judgedAt(k));
    RunThree(s, es[0], es[1], es[2]);
    assert vs[..3][..2] == vs[..2] && vs[..2][..1] == vs[..1] && vs[..1] == [vs[0]];
    OneMove(m, vs[0]);
    assert Moves(m, vs[..2]) == m[k := Runs.Step(s, es[0])];
    assert Moves(m, vs[..3]) == m[k := Runs.Step(Runs.Step(s, es[0]), es[1])];
  }

  /** Only the system of k may differ. */
  ghost predicate OnlyAt(m: Systems, m': Systems, k: Key) { forall j :: j != k ==> Get(m', j) == Get(m, j) }

  /** The moves of a tick bring about its effect on the claim. */
  lemma EffectIsMoves(w: World, rules: seq<Rule>, holders: seq<Key>, k: Key, entry: Rec, max: int, m: Systems)
    returns (vs: seq<Move>)
    requires w.judgedAt(k) <= w.stampedAt(k) && k in m && m[k].pending == Runs.Nothing
    requires PolicyWithin(GetVolumePolicy(w.glob, k.name, rules), max)
    requires EffectOn(w, rules, holders, k, Some(m[k].claim), entry).claim.Some?
    ensures AllAllowed(vs, max)
    ensures
      var m' := Moves(m, vs);
      && OnlyAt(m, m', k) && k in m' && m'[k].pending == Runs.Nothing
      && Some(m'[k].claim) == EffectOn(w, rules, holders, k, Some(m[k].claim), entry).claim
  {
    assert |holders| <= 1 && w.readable(k);
    var policy := GetVolumePolicy(w.glob, k.name, rules).policy;
    vs := TickMoves(w, policy, k, entry);
    TickMovesRun(m, w, policy, k, entry);
    TickIsRun(w, rules, holders, k, m[k].claim, entry, m[k].version);
  }

  lemma TickOnClaim(
    w: World, s: Cluster, name: string, list: seq<Key>, owners: Owners, order: seq<Key>, max: int, m: Systems, k: Key)
    returns (vs: seq<Move>)
    requires Plan(w, s, name, list, owners, order) && PoliciesWithin(w, s, name, max)
    requires w.judgedAt(k) <= w.stampedAt(k) && k in s.claims && Agrees(m, s.claims, k)
    ensures AllAllowed(vs, max) && OnlyAt(m, Moves(m, vs), k)
    ensures Agrees(Moves(m, vs), TickAll(w, s, list, owners, order).claims, k)
  {
    var rules, holders, entry := TickIsEffect(w, s, name, list, owners, order, k);
    var e := EffectOn(w, rules, holders, k, Some(s.claims[k]), entry);
    if e.claim.None? {
      vs := [];
    } else {
      var p :| p in list && s.pvcas[p].rules == rules;
      assert PolicyWithin(GetVolumePolicy(w.glob, k.name, s.pvcas[p].rules), max);
      vs := EffectIsMoves(w, rules, holders, k, entry, max, m);
    }
  }

  lemma AgreesCarries(m: Systems, m': Systems, claims: map<Key, Claim>, k: Key)
    requires Get(m', k) == Get(m, k) && Agrees(m, claims, k)
    ensures Agrees(m', claims, k)
  {
  }

  /** What a change does to one claim is a few moves of that claim. */
  lemma ChangeOnClaim(s: Cluster, c: Change, name: string, max: int, m: Systems, k: Key) returns (vs: seq<Move>)
    requires Legal(s, name, c) && Undisturbed(s, name, c, max) && Agrees(m, s.claims, k)
    ensures AllAllowed(vs, max) && OnlyAt(m, Moves(m, vs), k)
    ensures Agrees(Moves(m, vs), After(s, name, c).claims, k)
  {
    var t := After(s, name, c);
    if k !in s.claims && k !in t.claims {
      vs := [];
    } else if c.Ticked? {
      if k in t.claims { TickClaims(c.w, s, name, c.list, c.owners, c.order, k); }
      vs := TickOnClaim(c.w, s, name, c.list, c.owners, c.order, max, m, k);
    } else {
      vs := if k !in t.claims then [Vanish(k)]
            else if k in s.claims then [Drive(k, t.claims[k])]
            else [Appear(k, t.claims[k])];
      OneMove(m, vs[0]);
    }
  }

  /** So is what it does to a set of claims. */
  lemma {:induction false} ChangeOnClaims(s: Cluster, c: Change, name: string, max: int, m: Systems, keys: set<Key>)
    returns (vs: seq<Move>)
    requires Legal(s, name, c) && Undisturbed(s, name, c, max) && Represents(m, s)
    ensures AllAllowed(vs, max)
    ensures forall k :: k in keys ==> Agrees(Moves(m, vs), After(s, name, c).claims, k)
    ensures forall k :: k !in keys ==> Get(Moves(m, vs), k) == Get(m, k)
    decreases |keys|
  {
    if keys == {} {
      vs := [];
    } else {
      var k :| k in keys;
      var a := ChangeOnClaims(s, c, name, max, m, keys - {k});
      var m' := Moves(m, a);
      AgreesCarries(m, m', s.claims, k);
      var b := ChangeOnClaim(s, c, name, max, m', k);
      vs := a + b;
      MovesAppend(m, a, b);
      var t := After(s, name, c);
      forall j | j in keys ensures Agrees(Moves(m, vs), t.claims, j) {
        if j != k {
          assert j in keys - {k};
          AgreesCarries(m', Moves(m', b), t.claims, j);
        }
      }
    }
  }

  lemma ChangeIsInterleaving(s: Cluster, c: Change, name: string, max: int, m: Systems) returns (vs: seq<Move>)
    requires Legal(s, name, c) && Undisturbed(s, name, c, max) && Represents(m, s)
    ensures AllAllowed(vs, max) && Represents(Moves(m, vs), After(s, name, c))
  {
    var t := After(s, name, c);
    vs := ChangeOnClaims(s, c, name, max, m, s.claims.Keys + t.claims.Keys);
    forall k ensures Agrees(Moves(m, vs), t.claims, k) {
      if k !in s.claims.Keys + t.claims.Keys { assert Agrees(m, s.claims, k) && Get(Moves(m, vs), k) == Get(m, k); }
    }
  }

  /** Every cluster run is an interleaved run in which no driver acts during a tick, so whatever
      holds of all interleaved runs holds of it. */
  lemma {:induction false} RunIsInterleaving(
    states: seq<Cluster>, changes: seq<Change>, name: string, max: int, m: Systems, i: nat)
    returns (vs: seq<Move>)
    requires IsRun(states, changes, name) && i < |states| && Represents(m, states[0])
    requires forall j :: 0 <= j < |changes| ==> Undisturbed(states[j], name, changes[j], max)
    ensures AllAllowed(vs, max) && Represents(Moves(m, vs), states[i])
  {
    if i == 0 {
      vs := [];
    } else {
      var a := RunIsInterleaving(states, changes, name, max, m, i - 1);
      assert Follows(states, changes, name, i - 1) && Undisturbed(states[i - 1], name, changes[i - 1], max);
      var b := ChangeIsInterleaving(states[i - 1], changes[i - 1], name, max, Moves(m, a));
      MovesAppend(m, a, b);
      vs := a + b;
    }
  }
}
