/** The list of volume recommendations kept in the status of an autoscaler object. */
module Recommendations {
  import opened Api
  import opened Ordering

  function RecName(r: Rec): string { r.name }

  predicate Distinct(recs: seq<Rec>) {
    forall i, j :: 0 <= i < j < |recs| ==> recs[i].name != recs[j].name
  }

  /** The first entry with the given name. */
  function Lookup(recs: seq<Rec>, name: string): Option<Rec> {
    if recs == [] then None
    else if recs[0].name == name then Some(recs[0])
    else Lookup(recs[1..], name)
  }

  predicate Lists(recs: seq<Rec>, name: string) { Lookup(recs, name).Some? }

  function GetOrCreate(recs: seq<Rec>, name: string): Rec {
    match Lookup(recs, name) case None => FreshRec(name) case Some(r) => r
  }

  /** Replace the first entry with the given name, or append. */
  function SetRec(recs: seq<Rec>, name: string, rec: Rec): seq<Rec> {
    if recs == [] then [rec]
    else if recs[0].name == name then [rec] + recs[1..]
    else [recs[0]] + SetRec(recs[1..], name, rec)
  }

  method SetVolumeRecommendation(recs: seq<Rec>, name: string, rec: Rec) returns (r: seq<Rec>)
    ensures r == SetRec(recs, name, rec)
  {
    for i := 0 to |recs|
      invariant SetRec(recs, name, rec) == recs[..i] + SetRec(recs[i..], name, rec)
    {
      if recs[i].name == name {
        return recs[i := rec];
      }
    }
    r := recs + [rec];
  }

  lemma {:induction false} LookupMember(recs: seq<Rec>, name: string)
    ensures Lookup(recs, name).Some? ==> Lookup(recs, name).value in recs && Lookup(recs, name).value.name == name
    ensures Lookup(recs, name).None? ==> forall r :: r in recs ==> r.name != name
  {
    if recs != [] {
      assert recs == [recs[0]] + recs[1..];
      if recs[0].name != name { LookupMember(recs[1..], name); }
    }
  }

  lemma {:induction false} LookupDistinct(recs: seq<Rec>, r: Rec)
    requires Distinct(recs) && r in recs
    ensures Lookup(recs, r.name) == Some(r)
  {
    assert recs == [recs[0]] + recs[1..];
    if recs[0] != r {
      LookupDistinct(recs[1..], r);
      var i :| 0 <= i < |recs| && recs[i] == r;
      assert recs[0].name != recs[i].name;
    }
  }

  lemma {:induction false} SetRecLookup(recs: seq<Rec>, name: string, rec: Rec, other: string)
    requires rec.name == name
    ensures Lookup(SetRec(recs, name, rec), other) == if other == name then Some(rec) else Lookup(recs, other)
  {
    if recs != [] {
      var r := SetRec(recs, name, rec);
      if recs[0].name == name {
        assert r[1..] == recs[1..];
      } else {
        assert r[1..] == SetRec(recs[1..], name, rec);
        SetRecLookup(recs[1..], name, rec, other);
      }
    }
  }

  lemma {:induction false} SetRecDistinct(recs: seq<Rec>, name: string, rec: Rec)
    requires rec.name == name && Distinct(recs)
    ensures Distinct(SetRec(recs, name, rec))
    ensures forall r :: r in SetRec(recs, name, rec) ==> r == rec || r in recs
  {
    if recs != [] && recs[0].name != name {
      SetRecDistinct(recs[1..], name, rec);
      var tail := SetRec(recs[1..], name, rec);
      forall j | 0 <= j < |tail| ensures tail[j].name != recs[0].name {
        assert tail[j] in tail;
      }
    }
  }

  /** Entries whose name satisfies a test, in their order. */
  function Filtered(recs: seq<Rec>, keep: string -> bool): seq<Rec> {
    if recs == [] then []
    else
      var n := |recs| - 1;
      Filtered(recs[..n], keep) + (if keep(recs[n].name) then [recs[n]] else [])
  }

  lemma {:induction false} FilteredMember(recs: seq<Rec>, keep: string -> bool)
    ensures forall r :: r in Filtered(recs, keep) <==> r in recs && keep(r.name)
    ensures Distinct(recs) ==> Distinct(Filtered(recs, keep))
  {
    if recs != [] {
      var n := |recs| - 1;
      assert recs == recs[..n] + [recs[n]];
      FilteredMember(recs[..n], keep);
    }
  }

  lemma {:induction false} FilteredExt(recs: seq<Rec>, keep: string -> bool, keep': string -> bool)
    requires forall n :: keep(n) == keep'(n)
    ensures Filtered(recs, keep) == Filtered(recs, keep')
  {
    if recs != [] { FilteredExt(recs[..|recs| - 1], keep, keep'); }
  }

  lemma FilteredLookup(recs: seq<Rec>, keep: string -> bool, name: string)
    requires Distinct(recs)
    ensures Lookup(Filtered(recs, keep), name) == if keep(name) then Lookup(recs, name) else None
  {
    FilteredMember(recs, keep);
    LookupMember(recs, name);
    LookupMember(Filtered(recs, keep), name);
    if Lookup(recs, name).Some? && keep(name) {
      LookupDistinct(Filtered(recs, keep), Lookup(recs, name).value);
    }
  }

  // ----- sorting -----

  lemma TwiceInMultiset<T>(s: seq<T>, i: nat, j: nat)
    requires i < j < |s| && s[i] == s[j]
    ensures multiset(s)[s[i]] >= 2
  {
    assert s == s[..j] + [s[j]] + s[j + 1..];
    assert s[..j][i] == s[j];
    assert s[j] in multiset(s[..j]);
  }

  lemma {:induction false} DistinctCounts(recs: seq<Rec>)
    requires Distinct(recs)
    ensures forall r :: multiset(recs)[r] == if r in recs then 1 else 0
    ensures Determined(recs, RecName)
  {
    if recs != [] {
      assert recs == [recs[0]] + recs[1..];
      DistinctCounts(recs[1..]);
      assert recs[0] !in recs[1..];
    }
  }

  lemma DistinctFromCounts(recs: seq<Rec>)
    requires Determined(recs, RecName) && forall r :: r in recs ==> multiset(recs)[r] <= 1
    ensures Distinct(recs)
  {
    forall i, j | 0 <= i < j < |recs| ensures recs[i].name != recs[j].name {
      if recs[i].name == recs[j].name {
        assert RecName(recs[i]) == RecName(recs[j]);
        TwiceInMultiset(recs, i, j);
      }
    }
  }

  /** Sorting keeps the entries and their distinctness. */
  lemma SortKeeps(recs: seq<Rec>)
    requires Distinct(recs)
    ensures Distinct(Sort(recs, RecName)) && SortedBy(Sort(recs, RecName), RecName)
    ensures forall n :: Lookup(Sort(recs, RecName), n) == Lookup(recs, n)
  {
    var t := Sort(recs, RecName);
    SortSorted(recs, RecName);
    DistinctCounts(recs);
    forall r ensures r in t <==> r in recs {
      assert r in t <==> r in multiset(t);
      assert r in recs <==> r in multiset(recs);
    }
    DistinctFromCounts(t);
    forall n ensures Lookup(t, n) == Lookup(recs, n) {
      SameMembersSameLookup(t, recs, n);
    }
  }

  lemma SameMembersSameLookup(a: seq<Rec>, b: seq<Rec>, n: string)
    requires Distinct(a) && Distinct(b) && forall r :: r in a <==> r in b
    ensures Lookup(a, n) == Lookup(b, n)
  {
    LookupMember(a, n);
    LookupMember(b, n);
    if Lookup(a, n).Some? { LookupDistinct(b, Lookup(a, n).value); }
  }

  /** Two lists without duplicates that answer every lookup alike publish the same list. */
  lemma SameLookupsSameSort(a: seq<Rec>, b: seq<Rec>)
    requires Distinct(a) && Distinct(b) && forall n :: Lookup(a, n) == Lookup(b, n)
    ensures Sort(a, RecName) == Sort(b, RecName)
  {
    forall r ensures r in a <==> r in b {
      LookupMember(a, r.name);
      LookupMember(b, r.name);
      if r in a { LookupDistinct(a, r); }
      if r in b { LookupDistinct(b, r); }
    }
    DistinctCounts(a);
    DistinctCounts(b);
    assert multiset(a) == multiset(b);
    SortOfPermutation(a, b, RecName);
  }
}
