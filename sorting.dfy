/** The ordering and paging steps of a database query over a sequence of
    rows: a stable sort by a numeric key (ties keep table order, a choice of
    this model, since the database does not promise any order among ties),
    and `take`. */
module Sorting {
  import opened Wrappers

  ghost predicate SortedBy<T>(s: seq<T>, rank: T -> real) {
    forall i, j | 0 <= i < j < |s| :: rank(s[i]) <= rank(s[j])
  }

  /** Puts `x` before the first element whose rank is not below its own. */
  function Insert<T>(x: T, s: seq<T>, rank: T -> real): (r: seq<T>)
    requires SortedBy(s, rank)
    ensures SortedBy(r, rank)
    ensures multiset(r) == multiset(s) + multiset{x}
  {
    if s == [] || rank(x) <= rank(s[0]) then [x] + s
    else
      var tail := Insert(x, s[1..], rank);
      InsertBehindHead(x, s, rank, tail);
      [s[0]] + tail
  }

  /** When `x` goes behind the head, the head followed by the sorted tail
      with `x` inserted is sorted and holds the same rows. */
  lemma InsertBehindHead<T>(x: T, s: seq<T>, rank: T -> real, tail: seq<T>)
    requires s != [] && rank(s[0]) < rank(x)
    requires SortedBy(s, rank) && SortedBy(tail, rank)
    requires multiset(tail) == multiset(s[1..]) + multiset{x}
    ensures SortedBy([s[0]] + tail, rank)
    ensures multiset([s[0]] + tail) == multiset(s) + multiset{x}
  {
    assert s == [s[0]] + s[1..];
    forall k | 0 <= k < |tail|
      ensures rank(s[0]) <= rank(tail[k])
    {
      assert tail[k] in multiset(tail);
      if tail[k] != x {
        assert tail[k] in s[1..];
      }
    }
  }

  /** Insertion sort by ascending rank; rank by the negated key for a descending order. */
  function SortBy<T>(s: seq<T>, rank: T -> real): (r: seq<T>)
    ensures SortedBy(r, rank)
    ensures multiset(r) == multiset(s)
  {
    if s == [] then []
    else
      assert s == [s[0]] + s[1..];
      Insert(s[0], SortBy(s[1..], rank), rank)
  }

  /** `take: n` for a non-negative `n`: the first `n` rows, or all of them. */
  function Take<T>(s: seq<T>, n: nat): (r: seq<T>)
    ensures |r| == if n < |s| then n else |s|
    ensures r == s[..|r|]
  {
    if n < |s| then s[..n] else s
  }

  /** `take: limit ?? undefined`: no limit keeps every row. */
  function TakeLimit<T>(s: seq<T>, limit: Option<nat>): (r: seq<T>)
    ensures limit.Some? ==> |r| == if limit.value < |s| then limit.value else |s|
    ensures limit.None? ==> r == s
    ensures |r| <= |s| && r == s[..|r|]
  {
    match limit
    case None => s
    case Some(n) => Take(s, n)
  }

  /** The number of rows a signed `take` asks for. */
  function Magnitude(n: int): nat {
    if n < 0 then -n else n
  }

  /** Prisma's `take` for any integer: a negative `n` takes the last `-n`
      rows (in query order), zero takes none. */
  function TakeSigned<T>(s: seq<T>, n: int): (r: seq<T>)
    ensures |r| == if |s| <= Magnitude(n) then |s| else Magnitude(n)
    ensures |s| <= Magnitude(n) ==> r == s
    ensures n >= 0 ==> r == s[..|r|]
    ensures n < 0 ==> r == s[|s| - |r|..]
  {
    if n >= 0 then Take(s, n)
    else if -n < |s| then s[|s| + n..] else s
  }

  /** In a sorted sequence, no row outside the first `m` ranks before one inside. */
  lemma PrefixRanksFirst<T>(sorted: seq<T>, rank: T -> real, m: nat)
    requires SortedBy(sorted, rank) && m <= |sorted|
    ensures forall x, y | x in sorted && x !in sorted[..m] && y in sorted[..m] :: rank(y) <= rank(x)
  {
    forall x, y | x in sorted && x !in sorted[..m] && y in sorted[..m]
      ensures rank(y) <= rank(x)
    {
      var j :| 0 <= j < |sorted| && sorted[j] == x;
      var i :| 0 <= i < m && sorted[..m][i] == y;
      assert j >= m by {
        assert forall k | 0 <= k < m :: sorted[..m][k] == sorted[k];
      }
    }
  }

  /** In a sorted sequence, no row before the last rows ranks after one of them. */
  lemma SuffixRanksLast<T>(sorted: seq<T>, rank: T -> real, m: nat)
    requires SortedBy(sorted, rank) && m <= |sorted|
    ensures forall x, y | x in sorted && x !in sorted[m..] && y in sorted[m..] :: rank(x) <= rank(y)
  {
    forall x, y | x in sorted && x !in sorted[m..] && y in sorted[m..]
      ensures rank(x) <= rank(y)
    {
      var j :| 0 <= j < |sorted| && sorted[j] == x;
      var i :| 0 <= i < |sorted| - m && sorted[m..][i] == y;
      assert j < m by {
        assert forall k | m <= k < |sorted| :: sorted[m..][k - m] == sorted[k];
      }
    }
  }

  /** A `take` after a sort returns as many rows as asked for or as there
      are, none that was not there, and every row when they all fit. */
  lemma SortedTakeMembers<T>(s: seq<T>, rank: T -> real, n: int)
    ensures var r := TakeSigned(SortBy(s, rank), n);
      && |r| == (if |s| <= Magnitude(n) then |s| else Magnitude(n))
      && (forall x | x in r :: x in s)
      && (|s| <= Magnitude(n) ==> forall x | x in s :: x in r)
  {
    var sorted := SortBy(s, rank);
    var r := TakeSigned(sorted, n);
    assert |multiset(sorted)| == |multiset(s)|;
    TakeSignedSubsequence(sorted, n, rank);
    forall x | x in r
      ensures x in s
    {
      assert x in multiset(sorted);
    }
    if |s| <= Magnitude(n) {
      forall x | x in s
        ensures x in r
      {
        assert x in multiset(s);
      }
    }
  }

  /** A `take` after a sort keeps the best-ranked rows: no row it leaves out
      ranks before one it keeps (after one, for a negative `take`, which
      keeps the last rows). */
  lemma SortedTakeRanks<T>(s: seq<T>, rank: T -> real, n: int)
    ensures var r := TakeSigned(SortBy(s, rank), n);
      && (n >= 0 ==> forall x, y | x in s && x !in r && y in r :: rank(y) <= rank(x))
      && (n < 0 ==> forall x, y | x in s && x !in r && y in r :: rank(x) <= rank(y))
  {
    var sorted := SortBy(s, rank);
    var r := TakeSigned(sorted, n);
    assert forall x | x in s :: x in sorted by {
      forall x | x in s
        ensures x in sorted
      {
        assert x in multiset(s);
      }
    }
    if n >= 0 {
      PrefixRanksFirst(sorted, rank, |r|);
    } else {
      SuffixRanksLast(sorted, rank, |sorted| - |r|);
    }
  }

  /** Keeping a run of consecutive rows keeps them in order and invents none. */
  lemma TakeSignedSubsequence<T>(s: seq<T>, n: int, rank: T -> real)
    ensures forall x | x in TakeSigned(s, n) :: x in s
    ensures SortedBy(s, rank) ==> SortedBy(TakeSigned(s, n), rank)
  {
    var r := TakeSigned(s, n);
    var off := if n >= 0 then 0 else |s| - |r|;
    assert forall k | 0 <= k < |r| :: r[k] == s[off + k];
  }

  /** The elements of `s` that satisfy `keep`, in their original order. */
  function Filter<T>(s: seq<T>, keep: T -> bool): (r: seq<T>)
    ensures |r| <= |s|
    ensures forall x | x in r :: x in s && keep(x)
    ensures forall x | x in s && keep(x) :: x in r
  {
    if s == [] then []
    else if keep(s[0]) then [s[0]] + Filter(s[1..], keep)
    else Filter(s[1..], keep)
  }

  lemma {:induction false} FilterAppend<T>(a: seq<T>, b: seq<T>, keep: T -> bool)
    ensures Filter(a + b, keep) == Filter(a, keep) + Filter(b, keep)
  {
    if a != [] {
      assert (a + b)[1..] == a[1..] + b;
      FilterAppend(a[1..], b, keep);
    } else {
      assert a + b == b;
    }
  }

  lemma FilterMultiset<T>(s: seq<T>, keep: T -> bool)
    ensures forall x :: multiset(Filter(s, keep))[x] == if keep(x) then multiset(s)[x] else 0
  {
    if s != [] {
      FilterMultiset(s[1..], keep);
      assert s == [s[0]] + s[1..];
    }
  }
}
