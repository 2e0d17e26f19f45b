/** Ranking by score. Python's `list.sort(key=..., reverse=True)` and
    `sorted(..., key=..., reverse=True)` are stable: elements with equal keys
    keep their input order. Every ranking in the source sorts a list whose
    elements are already listed in a known order (numbers 1..25 ascending,
    dictionary insertion order), so the result is described by the order
    `Before`: a higher key first, and on equal keys the earlier input first. */
module Ranking {

  /** One field of every entry, in order: `[x["number"] for x in top]`. */
  function Project<T>(s: seq<T>, field: T -> int): (r: seq<int>)
    ensures |r| == |s|
    ensures forall i :: 0 <= i < |s| ==> r[i] == field(s[i])
  {
    seq(|s|, i requires 0 <= i < |s| => field(s[i]))
  }

  /** x is ranked ahead of y: strictly higher key, or the same key and an
      earlier position (lower rank) in the input. */
  predicate Before<T>(key: T -> real, rank: T -> int, x: T, y: T) {
    key(x) > key(y) || (key(x) == key(y) && rank(x) < rank(y))
  }

  /** The elements of s are listed in strictly increasing rank. */
  predicate RankIncreasing<T>(s: seq<T>, rank: T -> int) {
    forall i, j :: 0 <= i < j < |s| ==> rank(s[i]) < rank(s[j])
  }

  /** Every element of s is ranked ahead of every later one. */
  predicate SortedBy<T>(s: seq<T>, key: T -> real, rank: T -> int) {
    forall i, j :: 0 <= i < j < |s| ==> Before(key, rank, s[i], s[j])
  }

  /** Every element of s[..k] has a lower rank than every element of s[k..]. */
  predicate RankSplit<T>(s: seq<T>, k: int, rank: T -> int) {
    forall i, m :: 0 <= i < k <= m < |s| ==> rank(s[i]) < rank(s[m])
  }

  /** s[..k+1] is sorted except for the element at j, which is ranked ahead
      of everything after it and has the highest rank of the prefix. */
  predicate Inserting<T>(s: seq<T>, k: int, j: int, key: T -> real, rank: T -> int)
    requires 0 <= j <= k < |s|
  {
    && (forall i, m :: 0 <= i < m <= k && i != j && m != j ==> Before(key, rank, s[i], s[m]))
    && (forall m :: j < m <= k ==> Before(key, rank, s[j], s[m]))
    && (forall i :: 0 <= i <= k && i != j ==> rank(s[i]) < rank(s[j]))
  }

  /** `a.sort(key=key, reverse=True)`: an in-place stable sort, highest key
      first (an insertion sort by adjacent swaps). When the input lists its
      elements by increasing rank, the result is a permutation of the input
      ordered by `Before`. */
  method SortDescending<T>(a: array<T>, key: T -> real, ghost rank: T -> int)
    requires RankIncreasing(a[..], rank)
    modifies a
    ensures multiset(a[..]) == old(multiset(a[..]))
    ensures SortedBy(a[..], key, rank)
  {
    if a.Length == 0 {
      return;
    }
    for k := 1 to a.Length
      invariant multiset(a[..]) == old(multiset(a[..]))
      invariant SortedBy(a[..k], key, rank)
      invariant RankSplit(a[..], k, rank)
      invariant a[k..] == old(a[..])[k..]
    {
      Insert(a, k, key, rank);
    }
    assert a[..a.Length] == a[..];
  }

  /** One insertion step: moves a[k] left past every element ranked behind
      it, leaving a[..k+1] sorted. */
  method Insert<T>(a: array<T>, k: int, key: T -> real, ghost rank: T -> int)
    requires 1 <= k < a.Length
    requires SortedBy(a[..k], key, rank)
    requires RankSplit(a[..], k, rank)
    requires RankIncreasing(a[k..], rank)
    modifies a
    ensures multiset(a[..]) == old(multiset(a[..]))
    ensures a[k + 1..] == old(a[k + 1..])
    ensures SortedBy(a[..k + 1], key, rank)
    ensures RankSplit(a[..], k + 1, rank)
  {
    var j := k;
    StartInsert(a[..], k, key, rank);
    while j > 0 && key(a[j - 1]) < key(a[j])
      invariant 0 <= j <= k
      invariant multiset(a[..]) == old(multiset(a[..]))
      invariant Inserting(a[..], k, j, key, rank)
      invariant RankSplit(a[..], k + 1, rank)
      invariant a[k + 1..] == old(a[k + 1..])
    {
      ghost var s := a[..];
      a[j - 1], a[j] := a[j], a[j - 1];
      assert a[..] == s[j - 1 := s[j]][j := s[j - 1]];
      SwapStep(s, k, j, key, rank);
      j := j - 1;
    }
    FinishInsert(a[..], k, j, key, rank);
  }

  /** Before the first swap, a[k] is the element being inserted. */
  lemma StartInsert<T>(s: seq<T>, k: int, key: T -> real, rank: T -> int)
    requires 1 <= k < |s|
    requires SortedBy(s[..k], key, rank)
    requires RankSplit(s, k, rank)
    requires RankIncreasing(s[k..], rank)
    ensures Inserting(s, k, k, key, rank)
    ensures RankSplit(s, k + 1, rank)
  {
    forall i, m | 0 <= i < m <= k && i != k && m != k
      ensures Before(key, rank, s[i], s[m])
    {
      assert s[..k][i] == s[i] && s[..k][m] == s[m];
    }
    forall i, m | 0 <= i < k + 1 <= m < |s|
      ensures rank(s[i]) < rank(s[m])
    {
      if i == k {
        assert s[k..][0] == s[i] && s[k..][m - k] == s[m];
      }
    }
  }

  /** Swapping the inserted element with a lower-keyed left neighbour keeps
      the insertion shape, one position further left. */
  lemma SwapStep<T>(s: seq<T>, k: int, j: int, key: T -> real, rank: T -> int)
    requires 0 < j <= k < |s|
    requires Inserting(s, k, j, key, rank)
    requires RankSplit(s, k + 1, rank)
    requires key(s[j - 1]) < key(s[j])
    ensures Inserting(s[j - 1 := s[j]][j := s[j - 1]], k, j - 1, key, rank)
    ensures RankSplit(s[j - 1 := s[j]][j := s[j - 1]], k + 1, rank)
  {
    var t := s[j - 1 := s[j]][j := s[j - 1]];
    forall i, m | 0 <= i < m <= k && i != j - 1 && m != j - 1
      ensures Before(key, rank, t[i], t[m])
    {
      var i' := if i == j then j - 1 else i;
      var m' := if m == j then j - 1 else m;
      assert t[i] == s[i'] && t[m] == s[m'];
    }
    forall m | j - 1 < m <= k
      ensures Before(key, rank, t[j - 1], t[m])
    {
      if m > j {
        assert t[m] == s[m];
      }
    }
    forall i | 0 <= i <= k && i != j - 1
      ensures rank(t[i]) < rank(t[j - 1])
    {
      if i == j {
        assert t[i] == s[j - 1];
      } else {
        assert t[i] == s[i];
      }
    }
    forall i, m | 0 <= i < k + 1 <= m < |t|
      ensures rank(t[i]) < rank(t[m])
    {
      var i' := if i == j then j - 1 else if i == j - 1 then j else i;
      assert t[i] == s[i'] && t[m] == s[m];
    }
  }

  /** Once the inserted element meets a left neighbour that is not behind it,
      the prefix is sorted, because `Before` is transitive. */
  lemma FinishInsert<T>(s: seq<T>, k: int, j: int, key: T -> real, rank: T -> int)
    requires 0 <= j <= k < |s|
    requires Inserting(s, k, j, key, rank)
    requires j == 0 || key(s[j - 1]) >= key(s[j])
    ensures SortedBy(s[..k + 1], key, rank)
  {
    forall i, m | 0 <= i < m < k + 1
      ensures Before(key, rank, s[i], s[m])
    {
      if m == j && i < j - 1 {
        assert Before(key, rank, s[i], s[j - 1]);
      }
    }
  }

  /** Two elements of a rank-increasing sequence with the same rank are the
      same element. */
  lemma RankDetermines<T>(s: seq<T>, rank: T -> int, x: T, y: T)
    requires RankIncreasing(s, rank)
    requires x in s && y in s && rank(x) == rank(y)
    ensures x == y
  {
    var p :| 0 <= p < |s| && s[p] == x;
    var q :| 0 <= q < |s| && s[q] == y;
    if p < q {
      assert rank(s[p]) < rank(s[q]);
    } else if q < p {
      assert rank(s[q]) < rank(s[p]);
    }
  }

  /** top is what `sorted(s, key=key, reverse=True)[:k]` keeps: min(k, |s|)
      elements of s with pairwise different ranks, in `Before` order, each
      ranked ahead of every element of s left out. */
  ghost predicate IsTop<T>(s: seq<T>, k: nat, top: seq<T>, key: T -> real, rank: T -> int) {
    && |top| == (if k < |s| then k else |s|)
    && SortedBy(top, key, rank)
    && (forall x :: x in top ==> x in s)
    && (forall i, j :: 0 <= i < j < |top| ==> rank(top[i]) != rank(top[j]))
    && (forall y, i :: y in s && y !in top && 0 <= i < |top| ==> Before(key, rank, top[i], y))
  }

  /** `sorted(s, key=key, reverse=True)[:k]`: the first min(k, |s|) elements
      of the stable descending ranking. They are taken from s, carry
      pairwise different ranks, are in `Before` order, and each is ranked
      ahead of every element of s that was left out. */
  method TopK<T>(s: seq<T>, k: nat, key: T -> real, ghost rank: T -> int) returns (top: seq<T>)
    requires RankIncreasing(s, rank)
    ensures IsTop(s, k, top, key, rank)
  {
    var a := new T[|s|](i requires 0 <= i < |s| => s[i]);
    assert a[..] == s;
    SortDescending(a, key, rank);
    var m := if k < |s| then k else |s|;
    top := a[..m];
    forall x | x in top
      ensures x in s
    {
      assert x in multiset(a[..]);
    }
    forall i, j | 0 <= i < j < |top|
      ensures rank(top[i]) != rank(top[j])
    {
      assert Before(key, rank, a[i], a[j]);
      assert a[i] in multiset(s) && a[j] in multiset(s);
      if rank(a[i]) == rank(a[j]) {
        RankDetermines(s, rank, a[i], a[j]);
      }
    }
    forall y, i | y in s && y !in top && 0 <= i < |top|
      ensures Before(key, rank, top[i], y)
    {
      assert y in multiset(a[..]);
      var j :| 0 <= j < a.Length && a[j] == y;
      assert j >= m;
    }
  }
}
