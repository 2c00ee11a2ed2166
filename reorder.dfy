/** The reordering helper the engine uses around every batch loop: requests are sorted
    by a Python tuple key `(major, minor)`, processed in that order, and the results are
    put back in the caller's order. Python's sort is stable, so requests with equal keys
    keep their original relative order; here that is made explicit by ordering indices
    by (key, original index). */
module Reorder {
  import opened Outcomes

  /** A sort key as Python compares the tuple `(major, tuple(minor))`. */
  datatype Key = Key(major: int, minor: seq<int>)

  /** Python's strict lexicographic order on tuples of ints: a proper prefix is smaller. */
  predicate LexLess(a: seq<int>, b: seq<int>)
  {
    |b| > 0 && (|a| == 0 || a[0] < b[0] || (a[0] == b[0] && LexLess(a[1..], b[1..])))
  }

  predicate KeyLess(a: Key, b: Key)
  {
    a.major < b.major || (a.major == b.major && LexLess(a.minor, b.minor))
  }

  lemma {:induction false} LexTrichotomy(a: seq<int>, b: seq<int>)
    ensures LexLess(a, b) || a == b || LexLess(b, a)
  {
    if |a| > 0 && |b| > 0 && a[0] == b[0] {
      LexTrichotomy(a[1..], b[1..]);
      if a[1..] == b[1..] {
        assert a == [a[0]] + a[1..] && b == [b[0]] + b[1..];
      }
    }
  }

  lemma {:induction false} LexIrreflexive(a: seq<int>)
    ensures !LexLess(a, a)
  {
    if |a| > 0 {
      LexIrreflexive(a[1..]);
    }
  }

  lemma {:induction false} LexTransitive(a: seq<int>, b: seq<int>, c: seq<int>)
    requires LexLess(a, b) && LexLess(b, c)
    ensures LexLess(a, c)
  {
    if |a| > 0 && a[0] == b[0] && b[0] == c[0] {
      LexTransitive(a[1..], b[1..], c[1..]);
    }
  }

  lemma KeyTrichotomy(a: Key, b: Key)
    ensures KeyLess(a, b) || a == b || KeyLess(b, a)
  {
    LexTrichotomy(a.minor, b.minor);
  }

  lemma KeyTransitive(a: Key, b: Key, c: Key)
    requires KeyLess(a, b) && KeyLess(b, c)
    ensures KeyLess(a, c)
  {
    if a.major == b.major == c.major {
      LexTransitive(a.minor, b.minor, c.minor);
    }
  }

  predicate InRange(s: seq<nat>, n: nat)
  {
    forall i :: 0 <= i < |s| ==> s[i] < n
  }

  /** Index `i` comes before index `j`: a smaller key, or an equal key and an earlier position. */
  predicate Before(keys: seq<Key>, i: nat, j: nat)
    requires i < |keys| && j < |keys|
  {
    KeyLess(keys[i], keys[j]) || (keys[i] == keys[j] && i < j)
  }

  lemma BeforeTotal(keys: seq<Key>, i: nat, j: nat)
    requires i < |keys| && j < |keys| && i != j
    ensures Before(keys, i, j) || Before(keys, j, i)
  {
    KeyTrichotomy(keys[i], keys[j]);
  }

  lemma BeforeTransitive(keys: seq<Key>, i: nat, j: nat, k: nat)
    requires i < |keys| && j < |keys| && k < |keys|
    requires Before(keys, i, j) && Before(keys, j, k)
    ensures Before(keys, i, k)
  {
    if KeyLess(keys[i], keys[j]) && KeyLess(keys[j], keys[k]) {
      KeyTransitive(keys[i], keys[j], keys[k]);
    }
  }

  lemma BeforeIrreflexive(keys: seq<Key>, i: nat)
    requires i < |keys|
    ensures !Before(keys, i, i)
  {
    LexIrreflexive(keys[i].minor);
  }

  /** `s` lists indices in strictly increasing (key, index) order. */
  predicate SortedBy(keys: seq<Key>, s: seq<nat>)
    requires InRange(s, |keys|)
  {
    forall i, j :: 0 <= i < j < |s| ==> Before(keys, s[i], s[j])
  }

  function Insert(keys: seq<Key>, x: nat, s: seq<nat>): (r: seq<nat>)
    requires x < |keys| && InRange(s, |keys|)
    ensures multiset(r) == multiset(s) + multiset{x}
    ensures InRange(r, |keys|)
  {
    if s == [] then [x]
    else if Before(keys, x, s[0]) then [x] + s
    else
      assert s == [s[0]] + s[1..];
      [s[0]] + Insert(keys, x, s[1..])
  }

  /** Every element of an insertion result is the inserted index or was already there. */
  lemma InsertMembers(keys: seq<Key>, x: nat, s: seq<nat>)
    requires x < |keys| && InRange(s, |keys|)
    ensures forall j :: 0 <= j < |Insert(keys, x, s)| ==> Insert(keys, x, s)[j] == x || Insert(keys, x, s)[j] in s
  {
    var r := Insert(keys, x, s);
    forall j | 0 <= j < |r| ensures r[j] == x || r[j] in s {
      assert r[j] in multiset(r);
    }
  }

  lemma {:induction false} InsertSorted(keys: seq<Key>, x: nat, s: seq<nat>)
    requires x < |keys| && InRange(s, |keys|)
    requires SortedBy(keys, s) && x !in s
    ensures SortedBy(keys, Insert(keys, x, s))
  {
    if s != [] {
      var r := Insert(keys, x, s);
      if Before(keys, x, s[0]) {
        forall j | 1 <= j < |r| ensures Before(keys, r[0], r[j]) {
          if j > 1 { BeforeTransitive(keys, x, s[0], s[j - 1]); }
        }
      } else {
        BeforeTotal(keys, x, s[0]);
        InsertSorted(keys, x, s[1..]);
        InsertMembers(keys, x, s[1..]);
        var tail := Insert(keys, x, s[1..]);
        assert r == [s[0]] + tail;
        forall j | 0 <= j < |tail| ensures Before(keys, s[0], tail[j]) {
          if tail[j] != x {
            var m :| 0 <= m < |s[1..]| && s[1..][m] == tail[j];
            assert s[m + 1] == tail[j];
          }
        }
      }
    }
  }

  function SortIndices(keys: seq<Key>, s: seq<nat>): (r: seq<nat>)
    requires InRange(s, |keys|)
    ensures multiset(r) == multiset(s)
    ensures InRange(r, |keys|)
  {
    if s == [] then []
    else
      assert s == [s[0]] + s[1..];
      Insert(keys, s[0], SortIndices(keys, s[1..]))
  }

  predicate Distinct(s: seq<nat>)
  {
    forall i, j :: 0 <= i < j < |s| ==> s[i] != s[j]
  }

  lemma {:induction false} SortIndicesSorted(keys: seq<Key>, s: seq<nat>)
    requires InRange(s, |keys|) && Distinct(s)
    ensures SortedBy(keys, SortIndices(keys, s))
  {
    if s != [] {
      assert s == [s[0]] + s[1..];
      SortIndicesSorted(keys, s[1..]);
      var rest := SortIndices(keys, s[1..]);
      assert s[0] !in s[1..];
      assert s[0] !in multiset(rest);
      InsertSorted(keys, s[0], rest);
    }
  }

  function Range(n: nat): (r: seq<nat>)
    ensures |r| == n && forall i :: 0 <= i < n ==> r[i] == i
  {
    seq(n, i => i)
  }

  /** `o` lists each of 0 .. n-1 exactly once. */
  predicate IsPermutation(o: seq<nat>, n: nat)
  {
    && |o| == n
    && InRange(o, n)
    && Distinct(o)
    && forall v :: 0 <= v < n ==> v in o
  }

  /** The order in which the reordered list visits the original positions. */
  function SortOrder(keys: seq<Key>): (o: seq<nat>)
    ensures IsPermutation(o, |keys|)
    ensures SortedBy(keys, o)
  {
    var o := SortIndices(keys, Range(|keys|));
    SortIndicesSorted(keys, Range(|keys|));
    assert |o| == |keys| by {
      assert |multiset(o)| == |multiset(Range(|keys|))|;
    }
    forall v | 0 <= v < |keys| ensures v in o {
      assert Range(|keys|)[v] == v;
      assert v in multiset(Range(|keys|));
    }
    forall i, j | 0 <= i < j < |o| ensures o[i] != o[j] {
      if o[i] == o[j] { BeforeIrreflexive(keys, o[i]); }
    }
    o
  }

  /** `get_reordered()`: the items in sorted order. */
  function Reordered<T>(items: seq<T>, o: seq<nat>): (r: seq<T>)
    requires IsPermutation(o, |items|)
    ensures |r| == |items| && forall j :: 0 <= j < |o| ==> r[j] == items[o[j]]
  {
    seq(|o|, j requires 0 <= j < |o| => items[o[j]])
  }

  function IndexOf(o: seq<nat>, v: nat): (j: nat)
    requires v in o
    ensures j < |o| && o[j] == v
  {
    if o[0] == v then 0 else 1 + IndexOf(o[1..], v)
  }

  /** `get_original(res)`: scatters results given in sorted order back to the original positions. */
  function Restore<U>(o: seq<nat>, res: seq<U>): (r: seq<U>)
    requires IsPermutation(o, |res|)
    ensures |r| == |res|
  {
    seq(|o|, i requires 0 <= i < |o| => res[IndexOf(o, i)])
  }

  /** Each result lands at the original position of the item it was computed for. */
  lemma RestorePlaces<U>(o: seq<nat>, res: seq<U>)
    requires IsPermutation(o, |res|)
    ensures |Restore(o, res)| == |res|
    ensures forall j :: 0 <= j < |o| ==> Restore(o, res)[o[j]] == res[j]
  {
    forall j | 0 <= j < |o| ensures Restore(o, res)[o[j]] == res[j] {
      var k := IndexOf(o, o[j]);
      assert k == j;
    }
  }

  /** The Reorderer's round trip: `get_original(get_reordered())` is the original list. */
  lemma RestoreReordered<T>(items: seq<T>, o: seq<nat>)
    requires IsPermutation(o, |items|)
    ensures Restore(o, Reordered(items, o)) == items
  {
    var r := Restore(o, Reordered(items, o));
    forall i | 0 <= i < |items| ensures r[i] == items[i] {
      var j := IndexOf(o, i);
      assert r[i] == Reordered(items, o)[j] == items[o[j]];
    }
  }

  /** A property holds of every reordered item exactly when it holds of every item. */
  lemma ReorderedAll<T>(items: seq<T>, o: seq<nat>, P: T -> bool)
    requires IsPermutation(o, |items|)
    ensures (forall j :: 0 <= j < |o| ==> P(Reordered(items, o)[j]))
            <==> (forall i :: 0 <= i < |items| ==> P(items[i]))
  {
    var r := Reordered(items, o);
    if forall j :: 0 <= j < |o| ==> P(r[j]) {
      forall i | 0 <= i < |items| ensures P(items[i]) {
        var j := IndexOf(o, i);
        assert r[j] == items[i];
      }
    }
  }

  /** Running steps in another order succeeds exactly when the original order does, and
      yields the same values in that other order. */
  lemma CollectReordered<T>(rs: seq<Result<T>>, o: seq<nat>)
    requires IsPermutation(o, |rs|)
    ensures Collect(Reordered(rs, o)).Success? <==> Collect(rs).Success?
    ensures Collect(rs).Success? ==> Collect(Reordered(rs, o)).value == Reordered(Collect(rs).value, o)
  {
    ReorderedAll(rs, o, (r: Result<T>) => r.Success?);
  }
}
