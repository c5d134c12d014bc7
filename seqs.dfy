/** The array operations the pages use, on sequences: `filter`, `find` and a
    stable `sort` by an integer key. */
module Seqs {
  import opened Common

  /** `s.filter(p)`: the elements satisfying `p`, in their original order. */
  function Filter<T>(p: T -> bool, s: seq<T>): (r: seq<T>)
    ensures |r| <= |s|
    ensures forall i :: 0 <= i < |r| ==> r[i] in s && p(r[i])
    ensures forall i :: 0 <= i < |s| && p(s[i]) ==> s[i] in r
  {
    if s == [] then [] else (if p(s[0]) then [s[0]] else []) + Filter(p, s[1..])
  }

  /** `a` is `b` with some elements left out: the other elements keep their order. */
  ghost predicate IsSubseq<T>(a: seq<T>, b: seq<T>)
    decreases |b|
  {
    a == [] || (b != [] && ((a[0] == b[0] && IsSubseq(a[1..], b[1..])) || IsSubseq(a, b[1..])))
  }

  /** A filter keeps the surviving elements in their original order. */
  lemma {:induction false} FilterIsSubseq<T>(p: T -> bool, s: seq<T>)
    ensures IsSubseq(Filter(p, s), s)
  {
    if s != [] {
      FilterIsSubseq(p, s[1..]);
      var a := Filter(p, s);
      if p(s[0]) {
        assert a == [s[0]] + Filter(p, s[1..]);
        assert a[0] == s[0] && a[1..] == Filter(p, s[1..]);
      } else {
        assert a == Filter(p, s[1..]);
      }
    }
  }

  /** An element is in the filtered sequence exactly when it is in the input
      and satisfies the predicate. */
  lemma FilterMembers<T>(p: T -> bool, s: seq<T>)
    ensures forall x :: x in Filter(p, s) <==> x in s && p(x)
  {
    var r := Filter(p, s);
    forall x ensures x in r <==> x in s && p(x) {
      if x in r {
        var i :| 0 <= i < |r| && r[i] == x;
      }
      if x in s {
        var i :| 0 <= i < |s| && s[i] == x;
      }
    }
  }

  /** A filter keeps every copy of a surviving element and no copy of the
      others: the number of occurrences of `x` in the result is its number
      in the input when `p(x)` holds, and zero otherwise. */
  lemma {:induction false} FilterCount<T>(p: T -> bool, s: seq<T>, x: T)
    ensures multiset(Filter(p, s))[x] == if p(x) then multiset(s)[x] else 0
  {
    if s != [] {
      FilterCount(p, s[1..], x);
      FilterCons(p, s[0], s[1..]);
      assert s == [s[0]] + s[1..];
    }
  }

  /** One step of a filter, on a sequence with a known first element. */
  lemma FilterCons<T>(p: T -> bool, x: T, s: seq<T>)
    ensures Filter(p, [x] + s) == (if p(x) then [x] else []) + Filter(p, s)
  {
    assert ([x] + s)[1..] == s;
  }

  /** A filter whose predicate holds everywhere returns its input. */
  lemma {:induction false} FilterKeepsAll<T>(p: T -> bool, s: seq<T>)
    requires forall i :: 0 <= i < |s| ==> p(s[i])
    ensures Filter(p, s) == s
  {
    if s != [] {
      FilterKeepsAll(p, s[1..]);
    }
  }

  /** Two filters in a row are one filter by the conjunction. */
  lemma {:induction false} FilterFilter<T>(p: T -> bool, q: T -> bool, pq: T -> bool, s: seq<T>)
    requires forall x :: pq(x) == (p(x) && q(x))
    ensures Filter(q, Filter(p, s)) == Filter(pq, s)
  {
    if s != [] {
      FilterFilter(p, q, pq, s[1..]);
      var ps := Filter(p, s[1..]);
      if p(s[0]) {
        assert Filter(p, s) == [s[0]] + ps;
        FilterCons(q, s[0], ps);
      } else {
        assert Filter(p, s) == ps;
      }
    }
  }

  /** Filtering distributes over concatenation. */
  lemma {:induction false} FilterAppend<T>(p: T -> bool, a: seq<T>, b: seq<T>)
    ensures Filter(p, a + b) == Filter(p, a) + Filter(p, b)
  {
    if a != [] {
      FilterAppend(p, a[1..], b);
      assert (a + b)[1..] == a[1..] + b;
    } else {
      assert a + b == b;
    }
  }

  /** `s.find(p)`: the first element satisfying `p`, None for `undefined`. */
  function Find<T>(p: T -> bool, s: seq<T>): (r: Option<T>)
    ensures r.None? <==> forall i :: 0 <= i < |s| ==> !p(s[i])
    ensures r.Some? ==> exists i :: 0 <= i < |s| && s[i] == r.value && p(s[i]) && forall j :: 0 <= j < i ==> !p(s[j])
  {
    if s == [] then None
    else if p(s[0]) then Some(s[0])
    else
      var r := Find(p, s[1..]);
      assert r.Some? ==> exists i :: 1 <= i < |s| && s[i] == r.value && p(s[i]) && forall j :: 0 <= j < i ==> !p(s[j]) by {
        if r.Some? {
          var i :| 0 <= i < |s[1..]| && s[1..][i] == r.value && p(s[1..][i]) && forall j :: 0 <= j < i ==> !p(s[1..][j]);
          assert s[i + 1] == r.value;
          assert forall j :: 1 <= j < i + 1 ==> !p(s[j]) by {
            forall j | 1 <= j < i + 1 ensures !p(s[j]) { assert s[j] == s[1..][j - 1]; }
          }
        }
      }
      r
  }

  /** When the first element satisfying `p` sits at `i`, `find` returns it. */
  lemma FindAt<T>(p: T -> bool, s: seq<T>, i: int)
    requires 0 <= i < |s| && p(s[i])
    requires forall j :: 0 <= j < i ==> !p(s[j])
    ensures Find(p, s) == Some(s[i])
  {
    var r := Find(p, s);
    var k :| 0 <= k < |s| && s[k] == r.value && p(s[k]) && forall j :: 0 <= j < k ==> !p(s[j]);
    assert k == i;
  }

  // ---------------------------------------------------------------- sorting

  /** Keys never decrease from left to right. */
  predicate SortedBy<T>(key: T -> int, s: seq<T>)
  {
    forall i, j :: 0 <= i < j < |s| ==> key(s[i]) <= key(s[j])
  }

  /** The predicate "has key k", used to pick out the elements that compare equal. */
  function HasKey<T>(key: T -> int, k: int): T -> bool
  {
    (x: T) => key(x) == k
  }

  /** Inserts `x` before the first element whose key is not smaller, so `x`
      lands ahead of the elements it ties with. */
  function InsertBy<T>(key: T -> int, x: T, s: seq<T>): (r: seq<T>)
    ensures multiset(r) == multiset(s) + multiset{x}
  {
    if s == [] || key(x) <= key(s[0]) then [x] + s
    else
      assert s == [s[0]] + s[1..];
      [s[0]] + InsertBy(key, x, s[1..])
  }

  /** Inserting into a sorted sequence keeps it sorted. */
  lemma {:induction false} InsertBySorted<T>(key: T -> int, x: T, s: seq<T>)
    requires SortedBy(key, s)
    ensures SortedBy(key, InsertBy(key, x, s))
  {
    if s != [] && key(x) > key(s[0]) {
      var rest := InsertBy(key, x, s[1..]);
      InsertBySorted(key, x, s[1..]);
      forall i | 0 <= i < |rest| ensures key(s[0]) <= key(rest[i]) {
        assert rest[i] in multiset(rest);
        assert rest[i] == x || rest[i] in multiset(s[1..]);
      }
      assert InsertBy(key, x, s) == [s[0]] + rest;
    }
  }

  /** `s.sort((a, b) => key(a) - key(b))`: an insertion sort, which like
      `Array.prototype.sort` keeps elements with equal keys in their order. */
  function SortBy<T>(key: T -> int, s: seq<T>): (r: seq<T>)
    ensures multiset(r) == multiset(s)
    ensures SortedBy(key, r)
  {
    if s == [] then []
    else
      assert s == [s[0]] + s[1..];
      InsertBySorted(key, s[0], SortBy(key, s[1..]));
      InsertBy(key, s[0], SortBy(key, s[1..]))
  }

  lemma {:induction false} InsertByStable<T>(key: T -> int, x: T, s: seq<T>, k: int)
    ensures Filter(HasKey(key, k), InsertBy(key, x, s))
         == (if key(x) == k then [x] else []) + Filter(HasKey(key, k), s)
  {
    var h := HasKey(key, k);
    var lead: seq<T> := if key(x) == k then [x] else [];
    if s == [] || key(x) <= key(s[0]) {
      FilterCons(h, x, s);
      assert Filter(h, InsertBy(key, x, s)) == lead + Filter(h, s);
    } else {
      var rest := InsertBy(key, x, s[1..]);
      var tail := Filter(h, s[1..]);
      var first: seq<T> := if h(s[0]) then [s[0]] else [];
      InsertByStable(key, x, s[1..], k);
      assert Filter(h, rest) == lead + tail;
      assert InsertBy(key, x, s) == [s[0]] + rest;
      FilterCons(h, s[0], rest);
      assert Filter(h, InsertBy(key, x, s)) == first + (lead + tail);
      FilterCons(h, s[0], s[1..]);
      assert [s[0]] + s[1..] == s;
      assert Filter(h, s) == first + tail;
      if first == [] {
        assert first + (lead + tail) == lead + tail;
        assert first + tail == tail;
      } else {
        assert lead == [];
        assert lead + (first + tail) == first + tail;
        assert lead + tail == tail;
      }
    }
  }

  /** Sorting is stable: for every key, the elements carrying that key appear
      in the result in the same order as in the input. */
  lemma {:induction false} SortByStable<T>(key: T -> int, s: seq<T>, k: int)
    ensures Filter(HasKey(key, k), SortBy(key, s)) == Filter(HasKey(key, k), s)
  {
    if s != [] {
      SortByStable(key, s[1..], k);
      InsertByStable(key, s[0], SortBy(key, s[1..]), k);
      FilterCons(HasKey(key, k), s[0], s[1..]);
      assert [s[0]] + s[1..] == s;
    }
  }
}
