/** Sorting by a string key, as the autoscaler does before it publishes messages and
    recommendations. */
module Ordering {

  /** Lexicographic order. */
  predicate Leq(a: string, b: string) {
    a == [] || (b != [] && (a[0] < b[0] || (a[0] == b[0] && Leq(a[1..], b[1..]))))
  }

  /** The texts agree up to position i, where the first ends or has the smaller character. */
  predicate LessAt(a: string, b: string, i: nat) {
    i <= |a| && i <= |b| && a[..i] == b[..i] && (i == |a| || (i < |b| && a[i] < b[i]))
  }

  /** The order is the lexicographic one. */
  lemma {:induction false} LeqIff(a: string, b: string)
    ensures Leq(a, b) <==> exists i: nat :: LessAt(a, b, i)
  {
    if a == [] {
      assert LessAt(a, b, 0);
    } else if b != [] && a[0] < b[0] {
      assert LessAt(a, b, 0);
    } else if b != [] && a[0] == b[0] {
      LeqIff(a[1..], b[1..]);
      if i: nat :| LessAt(a[1..], b[1..], i) {
        assert a[..i + 1] == [a[0]] + a[1..][..i] && b[..i + 1] == [b[0]] + b[1..][..i];
        assert LessAt(a, b, i + 1);
      }
      if i: nat :| LessAt(a, b, i) {
        assert i > 0;
        assert a[1..][..i - 1] == a[..i][1..] && b[1..][..i - 1] == b[..i][1..];
        assert LessAt(a[1..], b[1..], i - 1);
      }
    } else {
      forall i: nat ensures !LessAt(a, b, i) {
        if 0 < i <= |a| && i <= |b| { assert a[..i][0] == a[0] && b[..i][0] == b[0]; }
      }
    }
  }

  lemma {:induction false} LeqTotal(a: string, b: string)
    ensures Leq(a, b) || Leq(b, a)
    ensures Leq(a, b) && Leq(b, a) ==> a == b
  {
    if a != [] && b != [] && a[0] == b[0] {
      LeqTotal(a[1..], b[1..]);
      assert a == [a[0]] + a[1..] && b == [b[0]] + b[1..];
    }
  }

  lemma {:induction false} LeqTransitive(a: string, b: string, c: string)
    requires Leq(a, b) && Leq(b, c)
    ensures Leq(a, c)
  {
    if a != [] && a[0] == b[0] && b[0] == c[0] {
      LeqTransitive(a[1..], b[1..], c[1..]);
    }
  }

  /** The key by which strings themselves are sorted. */
  function Self(s: string): string { s }

  ghost predicate SortedBy<T>(s: seq<T>, key: T -> string) {
    forall i, j :: 0 <= i < j < |s| ==> Leq(key(s[i]), key(s[j]))
  }

  /** No two positions hold different values with the same key. */
  ghost predicate Determined<T>(s: seq<T>, key: T -> string) {
    forall x, y :: x in s && y in s && key(x) == key(y) ==> x == y
  }

  function Insert<T>(x: T, s: seq<T>, key: T -> string): (r: seq<T>)
    ensures multiset(r) == multiset{x} + multiset(s)
  {
    if s == [] then [x]
    else if Leq(key(x), key(s[0])) then [x] + s
    else
      assert s == [s[0]] + s[1..];
      [s[0]] + Insert(x, s[1..], key)
  }

  function Sort<T>(s: seq<T>, key: T -> string): (r: seq<T>)
    ensures multiset(r) == multiset(s)
  {
    if s == [] then []
    else
      assert s == [s[0]] + s[1..];
      Insert(s[0], Sort(s[1..], key), key)
  }

  lemma {:induction false} InsertSorted<T>(x: T, s: seq<T>, key: T -> string)
    requires SortedBy(s, key)
    ensures SortedBy(Insert(x, s, key), key)
  {
    if s != [] {
      var r := Insert(x, s, key);
      if Leq(key(x), key(s[0])) {
        forall j | 0 < j < |r| ensures Leq(key(x), key(r[j])) {
          if j > 1 { LeqTransitive(key(x), key(s[0]), key(s[j - 1])); }
        }
      } else {
        LeqTotal(key(x), key(s[0]));
        var rest := Insert(x, s[1..], key);
        InsertSorted(x, s[1..], key);
        forall j | 0 <= j < |rest| ensures Leq(key(s[0]), key(rest[j])) {
          assert rest[j] in multiset(rest);
          assert rest[j] == x || rest[j] in s[1..];
        }
      }
    }
  }

  lemma {:induction false} SortSorted<T>(s: seq<T>, key: T -> string)
    ensures SortedBy(Sort(s, key), key)
  {
    if s != [] {
      SortSorted(s[1..], key);
      InsertSorted(s[0], Sort(s[1..], key), key);
    }
  }

  lemma SortedHead<T>(s: seq<T>, t: seq<T>, key: T -> string)
    requires SortedBy(s, key) && SortedBy(t, key) && s != [] && t != []
    requires s[0] in t && t[0] in s
    ensures key(s[0]) == key(t[0])
  {
    var i :| 0 <= i < |t| && t[i] == s[0];
    var j :| 0 <= j < |s| && s[j] == t[0];
    LeqTotal(key(s[0]), key(s[0]));
    LeqTotal(key(t[0]), key(t[0]));
    assert Leq(key(t[0]), key(t[i]));
    assert Leq(key(s[0]), key(s[j]));
    LeqTotal(key(s[0]), key(t[0]));
  }

  lemma Tail<T>(s: seq<T>)
    requires s != []
    ensures multiset(s[1..]) == multiset(s) - multiset{s[0]}
    ensures s[0] in multiset(s)
  {
    assert s == [s[0]] + s[1..];
  }

  /** A sorted arrangement is unique once keys determine values, so every correct sorting
      routine, stable or not, returns the same sequence. */
  lemma {:induction false} SortedUnique<T>(s: seq<T>, t: seq<T>, key: T -> string)
    requires SortedBy(s, key) && SortedBy(t, key)
    requires multiset(s) == multiset(t) && Determined(s, key)
    ensures s == t
  {
    assert |s| == |multiset(s)| == |multiset(t)| == |t|;
    if s != [] {
      SameHead(s, t, key);
      SortedUnique(s[1..], t[1..], key);
      assert s == [s[0]] + s[1..] && t == [t[0]] + t[1..];
    }
  }

  lemma SameHead<T>(s: seq<T>, t: seq<T>, key: T -> string)
    requires SortedBy(s, key) && SortedBy(t, key) && s != [] && t != []
    requires multiset(s) == multiset(t) && Determined(s, key)
    ensures s[0] == t[0]
    ensures multiset(s[1..]) == multiset(t[1..])
    ensures Determined(s[1..], key)
  {
    Tail(s);
    Tail(t);
    assert s[0] in multiset(t) && t[0] in multiset(s);
    SortedHead(s, t, key);
    assert forall x :: x in s[1..] ==> x in s;
  }

  lemma SortOfPermutation<T>(s: seq<T>, t: seq<T>, key: T -> string)
    requires multiset(s) == multiset(t) && Determined(s, key)
    ensures Sort(s, key) == Sort(t, key)
  {
    SortSorted(s, key);
    SortSorted(t, key);
    var r := Sort(s, key);
    forall x, y | x in r && y in r && key(x) == key(y) ensures x == y {
      assert x in multiset(r) && y in multiset(r);
    }
    SortedUnique(r, Sort(t, key), key);
  }
}
