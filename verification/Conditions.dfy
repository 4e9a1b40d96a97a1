/** Status conditions of an autoscaler object and the aggregators that merge the conditions of
    many claims into one. */
module Conditions {
  import opened Api
  import opened Ordering

  datatype ConditionType = ResizingType | RecommendationAvailable

  /** The condition reasons in use; NoReason is the empty one. */
  datatype ReasonCode =
    | NoReason
    | Reconcile
    | ResizeCooldown
    | ResizeFailureRecovery
    | RecommendationsProvided
    | RecommendationsNotProvided
    | AmbiguousPVCA
    | PVCFetchError
    | NoPVCsMatched
    | RecommendationError
    | MetricsFetchError

  datatype Condition = Condition(kind: ConditionType, status: Status, reason: ReasonCode, message: string)

  // ----- specification -----

  /** Unknown < False < True */
  function Rank(s: Status): nat {
    match s case Unknown => 0 case False => 1 case True => 2
  }

  function Join(a: Status, b: Status): Status { if Rank(a) < Rank(b) then b else a }

  ghost function JoinAll(cs: seq<Condition>): Status {
    if cs == [] then Unknown
    else Join(JoinAll(cs[..|cs| - 1]), cs[|cs| - 1].status)
  }

  /** The join is the least upper bound: an upper bound that, unless Unknown, is attained. */
  lemma {:induction false} JoinAllIsLub(cs: seq<Condition>)
    ensures forall c :: c in cs ==> Rank(c.status) <= Rank(JoinAll(cs))
    ensures JoinAll(cs) != Unknown ==> exists c :: c in cs && c.status == JoinAll(cs)
  {
    if cs != [] {
      var n := |cs| - 1;
      assert cs == cs[..n] + [cs[n]];
      JoinAllIsLub(cs[..n]);
      assert cs[n] in cs;
    }
  }

  lemma JoinAllPermutes(a: seq<Condition>, b: seq<Condition>)
    requires forall c :: c in a <==> c in b
    ensures JoinAll(a) == JoinAll(b)
  {
    JoinAllIsLub(a);
    JoinAllIsLub(b);
  }

  function Messages(cs: seq<Condition>): (r: seq<string>)
    ensures |r| == |cs| && forall i :: 0 <= i < |cs| ==> r[i] == cs[i].message
  {
    seq(|cs|, i requires 0 <= i < |cs| => cs[i].message)
  }

  ghost function Reasons(cs: seq<Condition>): set<ReasonCode> { set c | c in cs :: c.reason }

  /** The reason all conditions share, or the generic one. */
  ghost function CommonReason(reasons: set<ReasonCode>, generic: ReasonCode): ReasonCode {
    if r :| reasons == {r} then r else generic
  }

  function Bullets(header: string, lines: seq<string>): string {
    if lines == [] then header
    else Bullets(header, lines[..|lines| - 1]) + "\n- " + lines[|lines| - 1]
  }

  const NOT_RESIZED := "PersistentVolumeClaims cannot be resized:"
  const RESIZED := "PersistentVolumeClaims are being resized:"
  const NOT_PROVIDED := "Recommendations could not be provided for some PersistentVolumeClaims:"

  ghost function AggregateResizing(cs: seq<Condition>): Condition {
    if cs == [] then Condition(ResizingType, Unknown, NoReason, "")
    else
      var status := JoinAll(cs);
      Condition(ResizingType, status, CommonReason(Reasons(cs), Reconcile),
                Bullets(if status == True then RESIZED else NOT_RESIZED, Sort(Messages(cs), Self)))
  }

  ghost function AggregateRecommendations(cs: seq<Condition>): Condition {
    if cs == [] then
      Condition(RecommendationAvailable, True, RecommendationsProvided, "Recommendations have been provided")
    else
      Condition(RecommendationAvailable, False, CommonReason(Reasons(cs), RecommendationsNotProvided),
                Bullets(NOT_PROVIDED, Sort(Messages(cs), Self)))
  }

  // ----- what the aggregated conditions say -----

  /** True if some claim says so, Unknown only if all do. */
  lemma ResizingStatusIff(cs: seq<Condition>)
    requires cs != []
    ensures AggregateResizing(cs).status == True <==> exists c :: c in cs && c.status == True
    ensures AggregateResizing(cs).status == Unknown <==> forall c :: c in cs ==> c.status == Unknown
    ensures AggregateResizing(cs).kind == ResizingType
  {
    JoinAllIsLub(cs);
    assert cs[0] in cs;
  }

  /** The reason all claims share, or the generic one if they differ. */
  lemma ReasonIff(cs: seq<Condition>, r: ReasonCode)
    requires cs != []
    ensures AggregateResizing(cs).reason == r <==>
              (forall c :: c in cs ==> c.reason == r) || (r == Reconcile && !Shared(cs))
    ensures AggregateRecommendations(cs).reason == r <==>
              (forall c :: c in cs ==> c.reason == r) || (r == RecommendationsNotProvided && !Shared(cs))
  {
    CommonReasonIff(cs, Reconcile, r);
    CommonReasonIff(cs, RecommendationsNotProvided, r);
  }

  ghost predicate Shared(cs: seq<Condition>) { forall c, d :: c in cs && d in cs ==> c.reason == d.reason }

  lemma CommonReasonIff(cs: seq<Condition>, generic: ReasonCode, r: ReasonCode)
    requires cs != []
    ensures CommonReason(Reasons(cs), generic) == r <==>
              (forall c :: c in cs ==> c.reason == r) || (r == generic && !Shared(cs))
  {
    var first := cs[0].reason;
    assert cs[0] in cs && first in Reasons(cs);
    if Shared(cs) {
      assert Reasons(cs) == {first};
    } else {
      forall x ensures Reasons(cs) != {x} {
        var c, d :| c in cs && d in cs && c.reason != d.reason;
        assert c.reason in Reasons(cs) && d.reason in Reasons(cs);
      }
    }
  }

  /** One line per text, each after a dash. */
  ghost function Lines(texts: seq<string>): string {
    if texts == [] then "" else "\n- " + texts[0] + Lines(texts[1..])
  }

  lemma {:induction false} LinesAppend(texts: seq<string>, last: string)
    ensures Lines(texts + [last]) == Lines(texts) + ("\n- " + last)
  {
    if texts == [] {
      assert Lines([last]) == "\n- " + last + "";
    } else {
      assert (texts + [last])[1..] == texts[1..] + [last];
      LinesAppend(texts[1..], last);
    }
  }

  lemma {:induction false} BulletsAreLines(header: string, texts: seq<string>)
    ensures Bullets(header, texts) == header + Lines(texts)
  {
    if texts != [] {
      var n := |texts| - 1;
      assert texts == texts[..n] + [texts[n]];
      BulletsAreLines(header, texts[..n]);
      LinesAppend(texts[..n], texts[n]);
    }
  }

  /** The text is a header that fits the status, and the messages of all claims in sorted order,
      one per line. */
  lemma TextExactly(cs: seq<Condition>, sorted: seq<string>)
    requires cs != [] && SortedBy(sorted, Self) && multiset(sorted) == multiset(Messages(cs))
    ensures
      var header := if exists c :: c in cs && c.status == True then RESIZED else NOT_RESIZED;
      AggregateResizing(cs).message == header + Lines(sorted)
    ensures AggregateRecommendations(cs).message == NOT_PROVIDED + Lines(sorted)
    ensures AggregateRecommendations(cs).status == False && AggregateRecommendations(cs).kind == RecommendationAvailable
  {
    SortSorted(Messages(cs), Self);
    SortedUnique(sorted, Sort(Messages(cs), Self), Self);
    ResizingStatusIff(cs);
    BulletsAreLines(RESIZED, sorted);
    BulletsAreLines(NOT_RESIZED, sorted);
    BulletsAreLines(NOT_PROVIDED, sorted);
  }

  // ----- only the multiset of inputs matters -----

  function Without(cs: seq<Condition>, i: nat): seq<Condition>
    requires i < |cs|
  {
    cs[..i] + cs[i + 1..]
  }

  lemma WithoutOne(cs: seq<Condition>, i: nat)
    requires i < |cs|
    ensures multiset(Without(cs, i)) == multiset(cs) - multiset{cs[i]}
    ensures multiset(Messages(cs)) == multiset(Messages(Without(cs, i))) + multiset{cs[i].message}
  {
    var ms := Messages(cs);
    assert ms == ms[..i] + [ms[i]] + ms[i + 1..];
    assert cs == cs[..i] + [cs[i]] + cs[i + 1..];
    assert Messages(Without(cs, i)) == ms[..i] + ms[i + 1..];
  }

  lemma IndexOf(c: Condition, cs: seq<Condition>) returns (i: nat)
    requires c in multiset(cs)
    ensures i < |cs| && cs[i] == c
  {
    assert c in cs;
    i :| 0 <= i < |cs| && cs[i] == c;
  }

  lemma {:induction false} MessagesPermute(a: seq<Condition>, b: seq<Condition>)
    requires multiset(a) == multiset(b)
    ensures multiset(Messages(a)) == multiset(Messages(b))
    decreases |a|
  {
    assert |a| == |multiset(a)| == |multiset(b)| == |b|;
    if |a| > 0 {
      WithoutOne(a, 0);
      var i := IndexOf(a[0], b);
      WithoutOne(b, i);
      MessagesPermute(Without(a, 0), Without(b, i));
    }
  }

  /** The aggregated conditions, down to their text, are the same for every order in which the
      claims were visited. */
  lemma AggregationIgnoresOrder(a: seq<Condition>, b: seq<Condition>)
    requires multiset(a) == multiset(b)
    ensures AggregateResizing(a) == AggregateResizing(b)
    ensures AggregateRecommendations(a) == AggregateRecommendations(b)
  {
    SameParts(a, b);
  }

  lemma SameParts(a: seq<Condition>, b: seq<Condition>)
    requires multiset(a) == multiset(b)
    ensures |a| == |b| && JoinAll(a) == JoinAll(b) && Reasons(a) == Reasons(b)
    ensures Sort(Messages(a), Self) == Sort(Messages(b), Self)
  {
    assert |a| == |multiset(a)| == |multiset(b)| == |b|;
    forall c ensures c in a <==> c in b {
      assert c in a <==> c in multiset(a);
      assert c in b <==> c in multiset(b);
    }
    JoinAllPermutes(a, b);
    MessagesPermute(a, b);
    SortOfPermutation(Messages(a), Messages(b), Self);
  }

  /** Bulleted text is never empty, so it is never mistaken for the "remove me" sentinel. */
  lemma BulletsNotEmpty(header: string, lines: seq<string>)
    requires header != ""
    ensures Bullets(header, lines) != ""
  {
  }

  // ----- the aggregators -----

  lemma Extended(cs: seq<Condition>, i: nat)
    requires i < |cs|
    ensures Messages(cs[..i + 1]) == Messages(cs[..i]) + [cs[i].message]
    ensures Reasons(cs[..i + 1]) == Reasons(cs[..i]) + {cs[i].reason}
    ensures JoinAll(cs[..i + 1]) == Join(JoinAll(cs[..i]), cs[i].status)
  {
    assert cs[..i + 1] == cs[..i] + [cs[i]];
    assert cs[..i + 1][..i] == cs[..i];
  }

  class ResizingAggregator {
    var conditions: seq<Condition>

    constructor ()
      ensures conditions == []
    {
      conditions := [];
    }

    method AddCondition(c: Condition)
      modifies this
      ensures conditions == old(conditions) + [c]
    {
      conditions := conditions + [c];
    }

    method GetAggregatedCondition() returns (r: Condition)
      ensures r == AggregateResizing(conditions)
    {
      if |conditions| == 0 {
        return Condition(ResizingType, Unknown, NoReason, "");
      }
      var cs := conditions;
      var message := NOT_RESIZED;
      var status := Unknown;
      var reasons: set<ReasonCode> := {};
      var lines: seq<string> := [];
      for i := 0 to |cs|
        invariant lines == Messages(cs[..i])
        invariant reasons == Reasons(cs[..i])
        invariant status == JoinAll(cs[..i])
        invariant message == if status == True then RESIZED else NOT_RESIZED
      {
        var c := cs[i];
        Extended(cs, i);
        lines := lines + [c.message];
        reasons := reasons + {c.reason};
        if c.status == True {
          message := RESIZED;
          status := True;
        } else if status == Unknown && c.status == False {
          status := False;
        }
      }
      assert cs[..|cs|] == cs;
      message := AppendBullets(message, Sort(lines, Self));
      var reason := PickReason(reasons, Reconcile);
      r := Condition(ResizingType, status, reason, message);
    }
  }

  class RecommendationsAggregator {
    var conditions: seq<Condition>

    ghost predicate Valid() reads this { forall c :: c in conditions ==> c.status == False }

    constructor ()
      ensures conditions == [] && Valid()
    {
      conditions := [];
    }

    method AddCondition(c: Condition)
      requires Valid()
      modifies this
      ensures Valid()
      ensures conditions == old(conditions) + (if c.status == False then [c] else [])
    {
      if c.status == False {
        conditions := conditions + [c];
      }
    }

    method GetAggregatedCondition() returns (r: Condition)
      requires Valid()
      ensures r == AggregateRecommendations(conditions)
    {
      var cs := conditions;
      var status := True;
      var reasons: set<ReasonCode> := {};
      var lines: seq<string> := [];
      for i := 0 to |cs|
        invariant lines == Messages(cs[..i])
        invariant reasons == Reasons(cs[..i])
        invariant status == if i == 0 then True else False
      {
        var c := cs[i];
        Extended(cs, i);
        if c.status == False {
          status := False;
          reasons := reasons + {c.reason};
          lines := lines + [c.message];
        }
      }
      assert cs[..|cs|] == cs;
      if status == True {
        return Condition(RecommendationAvailable, True, RecommendationsProvided, "Recommendations have been provided");
      }
      var message := AppendBullets(NOT_PROVIDED, Sort(lines, Self));
      var reason := PickReason(reasons, RecommendationsNotProvided);
      r := Condition(RecommendationAvailable, status, reason, message);
    }
  }

  method AppendBullets(header: string, lines: seq<string>) returns (message: string)
    ensures message == Bullets(header, lines)
  {
    message := header;
    for i := 0 to |lines|
      invariant message == Bullets(header, lines[..i])
    {
      assert lines[..i + 1][..i] == lines[..i];
      message := message + "\n- " + lines[i];
    }
    assert lines[..|lines|] == lines;
  }

  method PickReason(reasons: set<ReasonCode>, generic: ReasonCode) returns (r: ReasonCode)
    ensures reasons == {r} || (r == generic && forall x :: reasons != {x})
  {
    r := generic;
    if |reasons| == 1 {
      r :| r in reasons;
      Singleton(reasons, r);
    }
  }

  lemma Singleton<T>(s: set<T>, x: T)
    requires |s| == 1 && x in s
    ensures s == {x}
  {
    assert |s - {x}| == 0;
  }

  // ----- publishing -----

  predicate Has(cs: seq<Condition>, kind: ConditionType) { exists i :: 0 <= i < |cs| && cs[i].kind == kind }

  function Removed(cs: seq<Condition>, kind: ConditionType): (r: seq<Condition>)
    ensures !Has(r, kind)
    ensures forall k :: k != kind ==> (Has(r, k) <==> Has(cs, k))
    ensures forall c :: c in r <==> c in cs && c.kind != kind
  {
    if cs == [] then []
    else
      assert cs == [cs[0]] + cs[1..];
      var rest := Removed(cs[1..], kind);
      var r := if cs[0].kind == kind then rest else [cs[0]] + rest;
      assert forall k :: Has(cs, k) <==> cs[0].kind == k || Has(cs[1..], k) by {
        forall k ensures Has(cs, k) <==> cs[0].kind == k || Has(cs[1..], k) { HasCons(cs, k); }
      }
      assert forall k :: Has(r, k) <==> (cs[0].kind != kind && cs[0].kind == k) || Has(rest, k) by {
        forall k ensures Has(r, k) <==> (cs[0].kind != kind && cs[0].kind == k) || Has(rest, k) {
          if cs[0].kind != kind { assert r[1..] == rest; HasCons(r, k); }
        }
      }
      r
  }

  lemma HasCons(cs: seq<Condition>, k: ConditionType)
    requires cs != []
    ensures Has(cs, k) <==> cs[0].kind == k || Has(cs[1..], k)
  {
  }

  function Put(cs: seq<Condition>, c: Condition): seq<Condition> {
    if cs == [] then [c]
    else if cs[0].kind == c.kind then [c] + cs[1..]
    else [cs[0]] + Put(cs[1..], c)
  }

  lemma {:induction false} PutHas(cs: seq<Condition>, c: Condition)
    ensures c in Put(cs, c)
    ensures forall k :: Has(Put(cs, c), k) <==> k == c.kind || Has(cs, k)
  {
    var r := Put(cs, c);
    if cs == [] {
      assert r[0].kind == c.kind;
    } else if cs[0].kind == c.kind {
      assert r[1..] == cs[1..];
      forall k ensures Has(r, k) <==> k == c.kind || Has(cs, k) { HasCons(cs, k); HasCons(r, k); }
    } else {
      PutHas(cs[1..], c);
      assert r[1..] == Put(cs[1..], c);
      forall k ensures Has(r, k) <==> k == c.kind || Has(cs, k) { HasCons(cs, k); HasCons(r, k); }
    }
  }

  /** Putting a condition keeps those of other kinds. */
  lemma {:induction false} PutKeeps(cs: seq<Condition>, c: Condition, other: Condition)
    requires other in cs && other.kind != c.kind
    ensures other in Put(cs, c)
  {
    assert cs == [cs[0]] + cs[1..];
    if cs[0].kind != c.kind && other != cs[0] {
      PutKeeps(cs[1..], c, other);
    }
  }

  /** An empty message asks for removal. */
  function Published(cs: seq<Condition>, c: Condition): seq<Condition> {
    if c.message == "" then Removed(cs, c.kind) else Put(cs, c)
  }

  predicate OnePerKind(cs: seq<Condition>) { forall i, j :: 0 <= i < j < |cs| ==> cs[i].kind != cs[j].kind }

  lemma {:induction false} PutExactly(cs: seq<Condition>, c: Condition)
    requires OnePerKind(cs)
    ensures OnePerKind(Put(cs, c))
    ensures forall x :: x in Put(cs, c) <==> x == c || (x in cs && x.kind != c.kind)
  {
    if cs != [] {
      assert cs == [cs[0]] + cs[1..];
      if cs[0].kind != c.kind {
        PutExactly(cs[1..], c);
        var tail := Put(cs[1..], c);
        forall j | 0 <= j < |tail| ensures tail[j].kind != cs[0].kind { assert tail[j] in tail; }
      }
    }
  }

  lemma {:induction false} RemovedKeepsOnePerKind(cs: seq<Condition>, kind: ConditionType)
    requires OnePerKind(cs)
    ensures OnePerKind(Removed(cs, kind))
  {
    if cs != [] {
      RemovedKeepsOnePerKind(cs[1..], kind);
      var tail := Removed(cs[1..], kind);
      forall j | 0 <= j < |tail| ensures tail[j].kind != cs[0].kind { assert tail[j] in tail; }
    }
  }

  /** Publishing replaces: with at most one condition per kind before, there is at most one after,
      and it holds exactly the new condition, unless its text is empty, and the old ones of other
      kinds. */
  lemma PublishedExactly(cs: seq<Condition>, c: Condition)
    requires OnePerKind(cs)
    ensures OnePerKind(Published(cs, c))
    ensures forall x :: x in Published(cs, c) <==> (x == c && c.message != "") || (x in cs && x.kind != c.kind)
  {
    PutExactly(cs, c);
    RemovedKeepsOnePerKind(cs, c.kind);
  }

  /** After publishing, the Resizing condition is present exactly when some claim contributed a
      resizing condition, and then it is the aggregated one; the aggregated
      RecommendationAvailable is always there. */
  lemma PublishedResizingIff(before: seq<Condition>, resizing: seq<Condition>, recommending: seq<Condition>)
    ensures
      var after := Published(Published(before, AggregateResizing(resizing)), AggregateRecommendations(recommending));
      && (Has(after, ResizingType) <==> resizing != [])
      && (resizing != [] ==> AggregateResizing(resizing) in after)
      && AggregateRecommendations(recommending) in after
  {
    var a, b := AggregateResizing(resizing), AggregateRecommendations(recommending);
    if resizing != [] {
      BulletsNotEmpty(RESIZED, Sort(Messages(resizing), Self));
      BulletsNotEmpty(NOT_RESIZED, Sort(Messages(resizing), Self));
    }
    if recommending != [] {
      BulletsNotEmpty(NOT_PROVIDED, Sort(Messages(recommending), Self));
    }
    PutHas(before, a);
    PutHas(Published(before, a), b);
    if resizing != [] { PutKeeps(Published(before, a), b, a); }
  }
}
