/**
 * The array operations the route handlers chain: `filter`, `slice(0, n)` and
 * `Array.prototype.sort` with a comparator. Every
 * comparator in the core orders by a key, highest first, and JavaScript's sort is
 * stable, so the result is the stable sort by that key. Keys are a whole-number part
 * compared first and a real part that breaks ties (`b.exactMatches - a.exactMatches`,
 * then `b.score - a.score`); an ascending sort by `index` uses the key `-index`.
 */
module Lists {
  import opened Wrappers

  /** `s.filter(p)`: the elements satisfying `p`, in their order. */
  function Filter<T>(s: seq<T>, p: T -> bool): (r: seq<T>)
    ensures |r| <= |s|
    ensures forall k :: 0 <= k < |r| ==> p(r[k]) && r[k] in s
    ensures forall x :: x in s && p(x) ==> x in r
    decreases |s|
  {
    if s == [] then []
    else
      assert forall x :: x in s ==> x == s[0] || x in s[1..];
      (if p(s[0]) then [s[0]] else []) + Filter(s[1..], p)
  }

  /** Filtering keeps order: the filter of a concatenation is the concatenation of the filters. */
  lemma {:induction false} FilterConcat<T>(a: seq<T>, b: seq<T>, p: T -> bool)
    ensures Filter(a + b, p) == Filter(a, p) + Filter(b, p)
    decreases |a|
  {
    if a == [] {
      assert a + b == b;
    } else {
      assert (a + b)[0] == a[0] && (a + b)[1..] == a[1..] + b;
      FilterConcat(a[1..], b, p);
    }
  }


  datatype Rank = Rank(major: int, minor: real)

  /** `a` sorts strictly before `b`: the comparator of (a, b) is negative. */
  predicate Outranks(a: Rank, b: Rank) {
    a.major > b.major || (a.major == b.major && a.minor > b.minor)
  }

  /** No element sorts strictly before an element on its left. */
  predicate SortedBy<T>(s: seq<T>, rank: T -> Rank) {
    forall i, j :: 0 <= i < j < |s| ==> !Outranks(rank(s[j]), rank(s[i]))
  }

  /** Places `x` before the first element that does not outrank it. */
  function Insert<T>(x: T, s: seq<T>, rank: T -> Rank): (r: seq<T>)
    ensures multiset(r) == multiset(s) + multiset{x} && |r| == |s| + 1
    ensures forall k :: 0 <= k < |r| ==> r[k] == x || r[k] in s
    decreases |s|
  {
    if s == [] || !Outranks(rank(s[0]), rank(x)) then [x] + s
    else
      assert s == [s[0]] + s[1..];
      [s[0]] + Insert(x, s[1..], rank)
  }

  /** Inserting into a sorted list keeps it sorted. */
  lemma {:induction false} InsertSorted<T>(x: T, s: seq<T>, rank: T -> Rank)
    requires SortedBy(s, rank)
    ensures SortedBy(Insert(x, s, rank), rank)
    decreases |s|
  {
    if s != [] && Outranks(rank(s[0]), rank(x)) {
      var t := Insert(x, s[1..], rank);
      InsertSorted(x, s[1..], rank);
      forall k | 0 <= k < |t| ensures !Outranks(rank(t[k]), rank(s[0])) {
        if t[k] != x {
          var m :| 0 <= m < |s[1..]| && s[1..][m] == t[k];
          assert s[m + 1] == t[k];
        }
      }
    }
  }

  /** The stable sort of `s`, highest rank first. */
  function SortByRank<T>(s: seq<T>, rank: T -> Rank): (r: seq<T>)
    ensures multiset(r) == multiset(s) && |r| == |s|
    ensures SortedBy(r, rank)
    decreases |s|
  {
    if s == [] then []
    else
      assert s == [s[0]] + s[1..];
      var t := SortByRank(s[1..], rank);
      InsertSorted(s[0], t, rank);
      Insert(s[0], t, rank)
  }

  /** `s.slice(0, n)`. */
  function Take<T>(s: seq<T>, n: nat): (r: seq<T>)
    ensures |r| == if n < |s| then n else |s|
    ensures r == s[..|r|]
  {
    if n < |s| then s[..n] else s
  }

  /** A prefix of a sorted list is sorted. */
  lemma TakeSorted<T>(s: seq<T>, rank: T -> Rank, n: nat)
    requires SortedBy(s, rank)
    ensures SortedBy(Take(s, n), rank)
  {
    var r := Take(s, n);
    forall i, j | 0 <= i < j < |r| ensures !Outranks(rank(r[j]), rank(r[i])) {
      assert r[i] == s[i] && r[j] == s[j];
    }
  }

  /** No element occurs twice. */
  predicate Distinct<T(==)>(s: seq<T>) {
    forall i, j :: 0 <= i < j < |s| ==> s[i] != s[j]
  }

  /** In a list without repetitions every element is counted once. */
  lemma {:induction false} DistinctCountsOnce<T>(s: seq<T>, x: T)
    requires Distinct(s)
    ensures multiset(s)[x] <= 1
    decreases |s|
  {
    if s != [] {
      var t := s[..|s| - 1];
      assert s == t + [s[|s| - 1]];
      DistinctCountsOnce(t, x);
      if x == s[|s| - 1] {
        assert x !in t;
      }
    }
  }

  /** A permutation of a list without repetitions has none either. */
  lemma DistinctPermutation<T>(a: seq<T>, b: seq<T>)
    requires multiset(a) == multiset(b) && Distinct(a)
    ensures Distinct(b)
  {
    forall i, j | 0 <= i < j < |b| ensures b[i] != b[j] {
      if b[i] == b[j] {
        var x := b[i];
        assert b == b[..j] + [x] + b[j + 1..];
        assert x in b[..j];
        assert multiset(b)[x] >= 2;
        DistinctCountsOnce(a, x);
      }
    }
  }

  /** The smaller of two counts. */
  function Min(a: nat, b: nat): nat {
    if a < b then a else b
  }

  /** In a sorted list, an element past a prefix does not outrank an element in it. */
  lemma PrefixDominates<T>(sorted: seq<T>, rank: T -> Rank, n: nat, x: T, y: T)
    requires SortedBy(sorted, rank) && n <= |sorted|
    requires x in sorted && x !in sorted[..n] && y in sorted[..n]
    ensures !Outranks(rank(x), rank(y))
  {
    var p :| 0 <= p < |sorted| && sorted[p] == x;
    var q :| 0 <= q < n && sorted[..n][q] == y;
    assert sorted[q] == y;
  }

  /** A non-empty list is its head before its tail, also with one more element at the end. */
  lemma HeadTailSnoc<T>(s: seq<T>, y: T)
    requires |s| > 0
    ensures s == [s[0]] + s[1..]
    ensures s + [y] == [s[0]] + (s[1..] + [y])
  {
    var a, b := s + [y], [s[0]] + (s[1..] + [y]);
    assert |a| == |b|;
    forall k | 0 <= k < |a| ensures a[k] == b[k] {
      if 0 < k < |s| {
        assert b[k] == s[1..][k - 1];
      }
    }
  }

  /** The head and tail of a list built by putting one element in front. */
  lemma ConsParts<T>(s: seq<T>, h: T, rest: seq<T>)
    requires s == [h] + rest
    ensures |s| > 0 && s[0] == h && s[1..] == rest
  {
  }

  /** Concatenation is associative. */
  lemma AppendAssoc<T>(x: seq<T>, y: seq<T>, z: seq<T>)
    ensures x + y + z == x + (y + z)
  {
  }

  /** A one-element list with one more element. */
  lemma SingletonSnoc<T>(s: seq<T>, y: T)
    requires |s| == 1
    ensures s + [y] == [s[0], y] && s == [s[0]]
  {
  }

  lemma PrefixThenSlice<T>(s: seq<T>, i: nat, j: nat)
    requires i <= j <= |s|
    ensures s[..i] + s[i..j] == s[..j]
  {
  }

  /** Where `x` first occurs in `s`. */
  function FirstIndex<T(==)>(s: seq<T>, x: T): (r: nat)
    requires x in s
    ensures r < |s| && s[r] == x && x !in s[..r]
    decreases |s|
  {
    var prefix := s[..|s| - 1];
    if x in prefix then
      var r := FirstIndex(prefix, x);
      assert s[..r] == prefix[..r];
      r
    else
      assert s[..|s| - 1] == prefix;
      |s| - 1
  }

  /** `[...new Set(s)]`: each element once, where it first occurs. */
  function Unique<T(==)>(s: seq<T>): (r: seq<T>)
    ensures forall k :: 0 <= k < |r| ==> r[k] in s
    ensures forall k :: 0 <= k < |s| ==> s[k] in r
    decreases |s|
  {
    if s == [] then []
    else
      var prefix := s[..|s| - 1];
      var last := s[|s| - 1];
      assert forall k :: 0 <= k < |s| - 1 ==> s[k] == prefix[k];
      var u := Unique(prefix);
      if last in u then u else u + [last]
  }

  /**
   * The elements of `Unique(s)` are those of `s` without repetition, listed in the
   * order in which they first occur in `s`.
   */
  lemma {:induction false} UniqueOrder<T>(s: seq<T>)
    ensures Distinct(Unique(s))
    ensures forall i, j :: 0 <= i < j < |Unique(s)| ==> FirstIndex(s, Unique(s)[i]) < FirstIndex(s, Unique(s)[j])
    decreases |s|
  {
    if s != [] {
      var prefix := s[..|s| - 1];
      var last := s[|s| - 1];
      var u := Unique(prefix);
      UniqueOrder(prefix);
      forall y | y in prefix ensures FirstIndex(s, y) == FirstIndex(prefix, y) {
        FirstIndexPrefix(s, y);
      }
      if last !in u {
        assert last !in prefix;
        assert FirstIndex(s, last) == |s| - 1;
      }
    }
  }

  lemma FirstIndexPrefix<T>(s: seq<T>, y: T)
    requires |s| > 0 && y in s[..|s| - 1]
    ensures FirstIndex(s, y) == FirstIndex(s[..|s| - 1], y)
  {
  }

  /** What `f` gives for the elements of `s`, in order, skipping those it gives nothing for. */
  function Collect<T, U>(s: seq<T>, f: T -> Option<U>): seq<U>
    decreases |s|
  {
    if s == [] then []
    else
      var last := f(s[|s| - 1]);
      Collect(s[..|s| - 1], f) + (if last.Some? then [last.value] else [])
  }

  /**
   * `Collect` keeps exactly what `f` gives: each value `f` gives for an element is
   * collected, and each collected value is what `f` gives for some element.
   */
  lemma {:induction false} CollectExactly<T, U>(s: seq<T>, f: T -> Option<U>)
    ensures |Collect(s, f)| <= |s|
    ensures forall k :: 0 <= k < |s| && f(s[k]).Some? ==> f(s[k]).value in Collect(s, f)
    ensures forall k :: 0 <= k < |Collect(s, f)| ==> exists m :: 0 <= m < |s| && f(s[m]) == Some(Collect(s, f)[k])
    decreases |s|
  {
    if s != [] {
      var prefix := s[..|s| - 1];
      var c, p := Collect(s, f), Collect(prefix, f);
      CollectExactly(prefix, f);
      assert forall k :: 0 <= k < |prefix| ==> s[k] == prefix[k];
      assert forall k :: 0 <= k < |p| ==> c[k] == p[k];
      forall k | 0 <= k < |c| ensures exists m :: 0 <= m < |s| && f(s[m]) == Some(c[k]) {
        if k < |p| {
          var m :| 0 <= m < |prefix| && f(prefix[m]) == Some(p[k]);
          assert f(s[m]) == Some(c[k]);
        } else {
          assert f(s[|prefix|]) == Some(c[k]);
        }
      }
    }
  }

  /**
   * The first `n` of the stable sort by `rank`: drawn from `s`, sorted, and no element
   * left out outranks one taken.
   */
  lemma TakeBest<T>(s: seq<T>, rank: T -> Rank, n: nat)
    ensures var top := Take(SortByRank(s, rank), n);
            && multiset(top) <= multiset(s)
            && SortedBy(top, rank)
            && forall x, y :: x in multiset(s) - multiset(top) && y in top ==> !Outranks(rank(x), rank(y))
  {
    var sorted := SortByRank(s, rank);
    var top := Take(sorted, n);
    TakeSorted(sorted, rank, n);
    SplitCounts(sorted, |top|);
    SortedSplit(sorted, rank, |top|);
    assert top == sorted[..|top|];
  }

  /** Splitting a list splits its multiset. */
  lemma SplitCounts<T>(s: seq<T>, m: nat)
    requires m <= |s|
    ensures multiset(s) == multiset(s[..m]) + multiset(s[m..])
  {
    assert s == s[..m] + s[m..];
  }

  /** In a sorted list nothing after position `m` outranks anything before it. */
  lemma SortedSplit<T>(s: seq<T>, rank: T -> Rank, m: nat)
    requires SortedBy(s, rank) && m <= |s|
    ensures forall x, y :: x in s[m..] && y in s[..m] ==> !Outranks(rank(x), rank(y))
  {
    forall x, y | x in s[m..] && y in s[..m] ensures !Outranks(rank(x), rank(y)) {
      var p :| 0 <= p < |s| - m && s[m..][p] == x;
      var q :| 0 <= q < m && s[..m][q] == y;
      assert s[q] == y && s[m + p] == x;
    }
  }

}
