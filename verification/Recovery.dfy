/** Recovery from an infeasible expansion: the half-step reduction and how fast repeating it
    settles. */
module Recovery {
  import opened Api
  import opened Sizing

  /** The expansion was rejected in a way that a smaller request may cure. */
  predicate ShouldRecover(c: Claim) {
    var e := GetCondition(c.conditions, ControllerResizeError);
    c.infeasible || (e.Some? && e.value.status == True && e.value.message.limitError)
  }

  /** A condition of this kind is true and its message names a provider limit. */
  predicate LimitErrorOf(c: Claim, kind: ConditionKind) {
    IsTrue(c, kind) && GetCondition(c.conditions, kind).value.message.limitError
  }

  /** What the comments promise: limit errors of either kind count. */
  predicate DocumentedRecover(c: Claim) {
    c.infeasible || LimitErrorOf(c, ControllerResizeError) || LimitErrorOf(c, NodeResizeError)
  }

  /** The documented test and the actual one part company exactly on claims whose only sign of
      failure is a limit error on the node side; such claims exist, and are not recovered. */
  lemma RecoversAsDocumentedIff(c: Claim)
    ensures (ShouldRecover(c) <==> DocumentedRecover(c)) <==>
              !(LimitErrorOf(c, NodeResizeError) && !c.infeasible && !LimitErrorOf(c, ControllerResizeError))
    ensures ShouldRecover(c) ==> DocumentedRecover(c)
    ensures
      var node := ClaimCondition(NodeResizeError, True, Message(true, false));
      var d := c.(infeasible := false, conditions := [node]);
      DocumentedRecover(d) && !ShouldRecover(d)
  {
    var node := ClaimCondition(NodeResizeError, True, Message(true, false));
    assert GetCondition([node], NodeResizeError) == Some(node);
    assert GetCondition([node], ControllerResizeError) == None;
  }

  /** Capacity plus half of the failed step, at least 1Gi, rounded up to 1Gi. */
  function HalfStep(capacity: int, spec: int): int {
    CeilGi(capacity + Max(GI, (spec - capacity) / 2))
  }

  /** The reduced request, or None when there is nothing to reduce. */
  function Reduced(capacity: nat, spec: nat): Option<nat> {
    if capacity == 0 then None
    else
      var t := HalfStep(capacity, spec);
      if t >= spec then None else Some(t)
  }

  /** A 1Gi multiple at least 1Gi and half of the failed step above the capacity. */
  predicate HalfStepCovers(m: int, capacity: int, spec: int) {
    m % GI == 0 && m >= capacity + GI && 2 * (m - capacity) >= spec - capacity - 1
  }

  /** The smallest request recovery ever makes for a volume of this capacity. */
  function LeastRequest(capacity: int): int { CeilGi(capacity + GI) }

  /** Recovery is a no-op exactly when the request is at or below the least request; otherwise
      it writes the least 1Gi multiple that is at least 1Gi and at least half of the failed step,
      in whole bytes, above the capacity. That is strictly smaller than the request. */
  lemma ReducedExactly(capacity: nat, spec: nat)
    requires capacity > 0
    ensures Reduced(capacity, spec).None? <==> spec <= LeastRequest(capacity)
    ensures Reduced(capacity, spec).Some? ==>
              && var t := Reduced(capacity, spec).value;
              && LeastRequest(capacity) <= t < spec && t % GI == 0
              && t - capacity < (spec - capacity) / 2 + GI
              && HalfStepCovers(t, capacity, spec) && forall m :: HalfStepCovers(m, capacity, spec) ==> t <= m
  {
    if Reduced(capacity, spec).Some? {
      var step := Max(GI, (spec - capacity) / 2);
      forall m | HalfStepCovers(m, capacity, spec) ensures Reduced(capacity, spec).value <= m {
        CeilGiLeast(capacity + step, m);
      }
    }
  }

  lemma CeilGiLeast(x: int, m: int)
    requires m % GI == 0 && x <= m
    ensures CeilGi(x) <= m
  {
  }

  /** Successful reductions needed, with the capacity fixed, until recovery is a no-op. */
  ghost function Reductions(capacity: nat, spec: nat): nat
    decreases spec
  {
    var r := Reduced(capacity, spec);
    if r.None? then 0 else 1 + Reductions(capacity, r.value)
  }

  /** The request at which repeated recovery settles. */
  ghost function Settled(capacity: nat, spec: nat): nat
    decreases spec
  {
    var r := Reduced(capacity, spec);
    if r.None? then spec else Settled(capacity, r.value)
  }

  /** ceil(log2(n)), zero for n <= 1 */
  ghost function CeilLog2(n: int): nat
    decreases n
  {
    if n <= 1 then 0 else 1 + CeilLog2((n + 1) / 2)
  }

  ghost function Pow2(k: nat): nat {
    if k == 0 then 1 else 2 * Pow2(k - 1)
  }

  /** CeilLog2(n) is the least exponent whose power of two reaches n. */
  lemma {:induction false} CeilLog2IsLog(n: int, k: nat)
    ensures n <= Pow2(k) <==> CeilLog2(n) <= k
    decreases k
  {
    if n <= 1 {
      Pow2Positive(k);
    } else if k > 0 {
      CeilLog2IsLog((n + 1) / 2, k - 1);
    }
  }

  lemma Pow2Positive(k: nat)
    ensures Pow2(k) >= 1
  {
  }

  lemma {:induction false} CeilLog2Monotone(a: int, b: int)
    requires a <= b
    ensures CeilLog2(a) <= CeilLog2(b)
    decreases b
  {
    if a > 1 {
      CeilLog2Monotone((a + 1) / 2, (b + 1) / 2);
    }
  }

  /** Distance in whole gibibytes between capacity and request, both rounded up. */
  function Gap(capacity: int, spec: int): int { Gibs(spec) - Gibs(capacity) }

  /** A request on a 1Gi boundary, over a capacity that is not one byte past a boundary: there
      the truncation of half a byte in the failed step would round down by a whole step. */
  predicate Exact(capacity: int, spec: int) { spec % GI == 0 && capacity % GI != 1 }

  /** One reduction at least halves the gap (rounding up), and does no more than that on exact
      sizes. */
  lemma ReducedHalvesGap(capacity: nat, spec: nat)
    requires Reduced(capacity, spec).Some?
    ensures
      var t := Reduced(capacity, spec).value;
      && 2 <= Gap(capacity, spec)
      && 1 <= Gap(capacity, t) <= (Gap(capacity, spec) + 1) / 2
      && (Exact(capacity, spec) ==> Gap(capacity, t) == (Gap(capacity, spec) + 1) / 2)
  {
    var k := Gibs(capacity + Max(GI, (spec - capacity) / 2));
    var t := Reduced(capacity, spec).value;
    assert t == k * GI && Gibs(t) == k;
    HalvesGap(capacity, spec, Gibs(spec), Gibs(capacity), k);
  }

  /** The same in whole gibibytes: request s, capacity c, reduced request k. */
  lemma HalvesGap(capacity: nat, spec: nat, s: int, c: int, k: int)
    requires (s - 1) * GI < spec <= s * GI && (c - 1) * GI < capacity <= c * GI && k * GI < spec
    requires (k - 1) * GI < capacity + Max(GI, (spec - capacity) / 2) <= k * GI
    ensures c + 1 <= k < s && k - c <= (s - c + 1) / 2
    ensures Exact(capacity, spec) ==> k - c == (s - c + 1) / 2
  {
    assert c + 1 <= k < s;
    if (spec - capacity) / 2 <= GI {
      assert k == c + 1;
    } else {
      HalvesLargeGap(capacity, spec, s, c, k);
    }
    if Exact(capacity, spec) {
      ExactGap(capacity, spec, s, c, k);
    }
  }

  lemma HalvesLargeGap(capacity: int, spec: int, s: int, c: int, k: int)
    requires spec <= s * GI && capacity <= c * GI
    requires (k - 1) * GI < capacity + (spec - capacity) / 2
    ensures k - c <= (s - c + 1) / 2
  {
  }

  lemma ExactGap(capacity: int, spec: int, s: int, c: int, k: int)
    requires spec == s * GI && (c - 1) * GI < capacity <= c * GI && capacity != (c - 1) * GI + 1
    requires capacity + (spec - capacity) / 2 <= k * GI
    ensures k - c >= (s - c + 1) / 2
  {
  }

  /** Repeated recovery settles at the least request, in at most ceil(log2(gap)) patches, and
      in exactly that many on exact sizes. */
  lemma {:induction false} RecoveryConverges(capacity: nat, spec: nat)
    requires capacity > 0
    ensures Settled(capacity, spec) == if spec <= LeastRequest(capacity) then spec else LeastRequest(capacity)
    ensures Reductions(capacity, spec) <= CeilLog2(Gap(capacity, spec))
    ensures Exact(capacity, spec) ==> Reductions(capacity, spec) == CeilLog2(Gap(capacity, spec))
    decreases spec
  {
    ReducedExactly(capacity, spec);
    var r := Reduced(capacity, spec);
    if r.Some? {
      RecoveryConverges(capacity, r.value);
      ReducedHalvesGap(capacity, spec);
      CeilLog2Monotone(Gap(capacity, r.value), (Gap(capacity, spec) + 1) / 2);
    } else if Exact(capacity, spec) {
      assert Gap(capacity, spec) <= 1;
    }
  }

  /** The first request, on the way down, that a driver accepting at most `limit` can serve. */
  ghost function FirstFeasible(capacity: nat, spec: nat, limit: int): nat
    decreases spec
  {
    var r := Reduced(capacity, spec);
    if spec <= limit || r.None? then spec else FirstFeasible(capacity, r.value, limit)
  }

  /** If the driver can serve the least request at all, repeated recovery arrives at a request it
      can serve, at least 1Gi above the capacity and giving away at most half of the growth the
      driver would have allowed. */
  lemma {:induction false} RecoveryFindsFeasible(capacity: nat, spec: nat, limit: int)
    requires 0 < capacity && LeastRequest(capacity) <= limit
    ensures FirstFeasible(capacity, spec, limit) <= limit
    ensures spec > limit ==>
              && LeastRequest(capacity) <= FirstFeasible(capacity, spec, limit)
              && 2 * (FirstFeasible(capacity, spec, limit) - capacity) >= limit - capacity
    decreases spec
  {
    ReducedExactly(capacity, spec);
    if spec > limit {
      RecoveryFindsFeasible(capacity, Reduced(capacity, spec).value, limit);
    }
  }
}
