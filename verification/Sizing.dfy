/** Size arithmetic: the scale-up target, the staleness test and the utilization percentages, all
    over exact integers. */
module Sizing {
  import opened Api

  function Max(a: int, b: int): int { if a < b then b else a }

  /** ceil(x / 1Gi) */
  function Gibs(x: int): (r: int)
    ensures (r - 1) * GI < x <= r * GI
  {
    (x + GI - 1) / GI
  }

  /** The least multiple of 1Gi that is at least x. */
  function CeilGi(x: int): (r: int)
    ensures r % GI == 0 && x <= r < x + GI
  {
    Gibs(x) * GI
  }

  // ----- scale-up -----

  lemma MulLe(a: int, b: int, c: int)
    requires a <= b && c >= 0
    ensures c * a <= c * b
  {
  }

  /** 100 times the size wanted before rounding: the request plus the larger of the percentage
      step and the absolute step. */
  function WantedTimes100(spec: int, p: Policy): int {
    100 * spec + Max(spec * p.stepPercent, 100 * p.minStep)
  }

  /** The wanted size rounded up to a multiple of 1Gi. */
  function RoundedTarget(spec: int, p: Policy): int {
    (WantedTimes100(spec, p) + 100 * GI - 1) / (100 * GI) * GI
  }

  datatype Sized = NotLarger | MaxReached | Target(size: int)

  function RecommendSize(spec: int, p: Policy): (r: Sized)
    ensures r.Target? ==> spec < r.size <= p.maxCapacity
  {
    var t := RoundedTarget(spec, p);
    if t <= spec then NotLarger
    else if t > p.maxCapacity then
      if p.maxCapacity - spec < GI then MaxReached else Target(p.maxCapacity)
    else Target(t)
  }

  predicate AtMaxCapacity(spec: int, p: Policy) {
    p.maxCapacity - spec < GI
  }

  /** The rounded target is the least 1Gi multiple covering both steps. */
  lemma RoundedTargetIsLeast(spec: nat, p: Policy)
    requires ValidPolicy(p)
    ensures RoundedTarget(spec, p) % GI == 0
    ensures 100 * RoundedTarget(spec, p) >= 100 * spec + spec * p.stepPercent
    ensures RoundedTarget(spec, p) >= spec + p.minStep
    ensures forall m :: m % GI == 0 && 100 * m >= 100 * spec + spec * p.stepPercent && m >= spec + p.minStep
                        ==> RoundedTarget(spec, p) <= m
  {
  }

  /** Growth is at least 5% and at least 1Gi before clamping. */
  lemma RoundedTargetGrows(spec: nat, p: Policy)
    requires ValidPolicy(p)
    ensures 20 * RoundedTarget(spec, p) >= 21 * spec
    ensures RoundedTarget(spec, p) >= spec + GI
  {
    var step := spec * p.stepPercent;
    assert step >= spec * 5 by { MulLe(5, p.stepPercent, spec); }
    var w := WantedTimes100(spec, p);
    assert w == 100 * spec + Max(step, 100 * p.minStep);
  }

  /** A resize is refused exactly when the claim is at max capacity; otherwise the target
      lies between one step above the request and the maximum, and it is divisible by 1Gi
      exactly when it was not clamped or the maximum itself is. */
  lemma ScaleUpSound(spec: nat, p: Policy)
    requires ValidPolicy(p)
    ensures RecommendSize(spec, p) == MaxReached <==> AtMaxCapacity(spec, p)
    ensures !AtMaxCapacity(spec, p) ==>
              && RecommendSize(spec, p).Target?
              && var t := RecommendSize(spec, p).size;
              && spec + GI <= t <= p.maxCapacity
              && (t == p.maxCapacity || 20 * t >= 21 * spec)
              && (t % GI == 0 <==> RoundedTarget(spec, p) <= p.maxCapacity || p.maxCapacity % GI == 0)
  {
    RoundedTargetIsLeast(spec, p);
    RoundedTargetGrows(spec, p);
  }

  /** A 1Gi multiple that covers both the percentage step and the absolute step. */
  predicate Covers(m: int, spec: int, p: Policy) {
    m % GI == 0 && 100 * m >= 100 * spec + spec * p.stepPercent && m >= spec + p.minStep
  }

  /** The least covering size, or the maximum if that is smaller. */
  ghost predicate IsScaleUp(t: int, spec: int, p: Policy) {
    && t <= p.maxCapacity
    && (t < p.maxCapacity ==> Covers(t, spec, p))
    && forall m :: Covers(m, spec, p) ==> t <= m
  }

  /** With at least 1Gi of headroom the recommended size is the smaller of the maximum and the least
      1Gi multiple that covers the policy's steps, and there is only one such size; with less
      headroom there is none. */
  lemma ScaleUpExactly(spec: nat, p: Policy)
    requires ValidPolicy(p)
    ensures p.maxCapacity - spec < GI ==> RecommendSize(spec, p) == MaxReached
    ensures p.maxCapacity - spec >= GI ==>
              RecommendSize(spec, p).Target? && IsScaleUp(RecommendSize(spec, p).size, spec, p)
    ensures forall t, u :: IsScaleUp(t, spec, p) && IsScaleUp(u, spec, p) ==> t == u
  {
    RoundedTargetIsLeast(spec, p);
    RoundedTargetGrows(spec, p);
    assert Covers(RoundedTarget(spec, p), spec, p);
    assert forall m :: Covers(m, spec, p) ==> RoundedTarget(spec, p) <= m;
  }

  /** "Any storage request set by the autoscaler is divisible by 1Gi" is not true as it stands:
      a maximum of 2.5Gi is requested as it is. */
  lemma UnalignedRequest()
    ensures
      var p := Policy(5 * GI / 2, 80, 10, GI, None, InPlace);
      && ValidPolicy(p)
      && RecommendSize(GI + GI / 2, p) == Target(5 * GI / 2)
      && (5 * GI / 2) % GI != 0
  {
  }

  // ----- staleness -----

  /** The reported capacity deviates from the claim's size by more than both 4% and 0.5Gi. */
  predicate Stale(status: int, reported: int) {
    var delta := if status >= reported then status - reported else reported - status;
    25 * delta > status && 2 * delta > GI
  }

  /** Within 4% of the claim's size, or within 0.5Gi of it. */
  predicate InTolerance(status: int, reported: int) {
    || 24 * status <= 25 * reported <= 26 * status
    || (2 * (status - reported) <= GI && 2 * (reported - status) <= GI)
  }

  lemma StaleIff(status: nat, reported: int)
    ensures Stale(status, reported) <==> !InTolerance(status, reported)
  {
  }

  /** A report of the size before a resize is still accepted after it exactly when the claim
      grew by no more than a twenty-fourth. */
  lemma OldReportAcceptedIff(before: nat, after: nat)
    requires after >= before + GI
    ensures !Stale(after, before) <==> 24 * after <= 25 * before
  {
  }

  /** The 5% minimum step, the 1Gi resolution and the 4% tolerance fit together: after an
      unclamped resize every report taken at the old size is stale. */
  lemma GrowthEscapesTolerance(spec: nat, p: Policy)
    requires ValidPolicy(p) && RecommendSize(spec, p).Target?
    ensures Stale(RecommendSize(spec, p).size, spec) || RecommendSize(spec, p).size == p.maxCapacity
  {
    ScaleUpSound(spec, p);
  }

  // ----- utilization -----

  /** Integer conversion of a quotient: truncation toward zero. */
  function Truncated(num: int, den: int): int
    requires den != 0
  {
    var q := (if num < 0 then -num else num) / (if den < 0 then -den else den);
    if (num < 0) == (den < 0) then q else -q
  }

  /** The remainder has the sign of the dividend and is smaller than the divisor. */
  lemma TruncatedExactly(num: int, den: int)
    requires den != 0
    ensures
      var r := num - Truncated(num, den) * den;
      (if num < 0 then r <= 0 else r >= 0) && (if den < 0 then den < r < -den else -den < r < den)
  {
    var a, b := if num < 0 then -num else num, if den < 0 then -den else den;
    var q := a / b;
    DivisionRest(a, b);
    Negated(q, den);
    if den < 0 { Negated(q, b); }
  }

  lemma DivisionRest(a: nat, b: int)
    requires b > 0
    ensures 0 <= a - a / b * b < b
  {
    assert a == b * (a / b) + a % b;
  }

  lemma Negated(q: int, d: int)
    ensures (-q) * d == -(q * d) == q * (-d)
  {
  }

  /** Used percentage, or None for a zero capacity. */
  function UsedPercent(avail: int, cap: int): Option<int> {
    if cap == 0 then None else Some(100 - Truncated(100 * avail, cap))
  }

  /** The integer test "used percent above t" is the exact rational test. */
  lemma ThresholdExact(avail: nat, cap: int, t: int)
    requires cap > 0
    ensures UsedPercent(avail, cap).value > t <==> 100 * (cap - avail) > t * cap
  {
    var q := 100 * avail / cap;
    var r := 100 * avail % cap;
    assert 100 * avail == cap * q + r && 0 <= r < cap;
    assert UsedPercent(avail, cap).value == 100 - q;
    var k := 100 - t;
    assert cap * k == 100 * cap - t * cap by {
      assert cap * (100 - t) == cap * 100 - cap * t;
    }
    if q < k {
      assert cap * (q + 1) <= cap * k by { MulLe(q + 1, k, cap); }
      assert cap * (q + 1) == cap * q + cap;
    } else {
      assert cap * k <= cap * q by { MulLe(k, q, cap); }
    }
  }

  /** Growing a volume with unchanged content never raises the used percentage. */
  lemma GrowthNeverRaisesUsage(avail: nat, cap: int, extra: nat)
    requires avail <= cap && cap > 0
    ensures UsedPercent(avail + extra, cap + extra).value <= UsedPercent(avail, cap).value
  {
    var t := UsedPercent(avail, cap).value;
    ThresholdExact(avail, cap, t);
    ThresholdExact(avail + extra, cap + extra, t);
    assert t >= 0 by {
      ThresholdExact(avail, cap, -1);
      assert 100 * (cap - avail) > -1 * cap;
    }
    assert t * (cap + extra) == t * cap + t * extra;
  }
}
