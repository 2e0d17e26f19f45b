/** The "algorithmic" predictor (matrix_engine.py). Two 25×25 matrices are
    built from the settled draw log, which is every record not marked
    'ai_pending', ordered by date and time (`get_all_draws_sorted`). B counts
    how often two numbers are drawn together; A holds the row-normalised
    counts of a number in one draw being followed by a number in the next.
    A module-level cache keeps them with the length of the log they were
    built from. The prediction blends a time score (transitions from the
    latest draw) with a space score (affinity with the 15 best time
    candidates). Matrix row/column u-1 stands for ball u. */
module MatrixEngine {
  import opened Draws
  import opened Ranking

  // ---------------------------------------------------------------------
  // Specification of the matrix entries

  /** Pairs of positions i < j of s with s[i] == x and s[j] == y. */
  function OrderedPairs(s: seq<int>, x: int, y: int): nat {
    if s == [] then 0
    else (if s[0] == x then Count(s[1..], y) else 0) + OrderedPairs(s[1..], x, y)
  }

  /** What one draw adds to B[x-1][y-1]: every pair i < j of its balls adds 1
      at (balls[i], balls[j]) and 1 at (balls[j], balls[i]). */
  function PairCount(s: seq<int>, x: int, y: int): nat {
    OrderedPairs(s, x, y) + OrderedPairs(s, y, x)
  }

  /** B[x-1][y-1] for the log h. */
  function CoCount(h: seq<Draw>, x: int, y: int): nat {
    if h == [] then 0 else CoCount(h[..|h| - 1], x, y) + PairCount(h[|h| - 1].balls, x, y)
  }

  /** Raw A[x-1][y-1]: over each pair of consecutive draws, the number of
      (u, v) with u == x in the first and v == y in the second. */
  function TransCount(h: seq<Draw>, x: int, y: int): nat {
    if |h| < 2 then 0
    else TransCount(h[..|h| - 1], x, y) + Count(h[|h| - 2].balls, x) * Count(h[|h| - 1].balls, y)
  }

  /** Σ_{y=1..k} TransCount(h, x, y): the raw sum of row x over its first k columns. */
  function RowTotal(h: seq<Draw>, x: int, k: nat): nat {
    if k == 0 then 0 else RowTotal(h, x, k - 1) + TransCount(h, x, k)
  }

  /** Normalised A[x-1][y-1]: the raw count divided by its row sum, or 0 when
      the row sum is 0. */
  function Transition(h: seq<Draw>, x: int, y: int): real {
    var total := RowTotal(h, x, MaxNumber);
    if total == 0 then 0.0 else (TransCount(h, x, y) as real) / (total as real)
  }

  /** Σ_{y=1..k} Transition(h, x, y). */
  function TransitionRowSum(h: seq<Draw>, x: int, k: nat): real {
    if k == 0 then 0.0 else TransitionRowSum(h, x, k - 1) + Transition(h, x, k)
  }

  // ---------------------------------------------------------------------
  // Properties of the entries

  /** Count split at the head of a sequence. */
  lemma CountHead(s: seq<int>, n: int)
    requires s != []
    ensures Count(s, n) == (if s[0] == n then 1 else 0) + Count(s[1..], n)
  {
    assert s == [s[0]] + s[1..];
    CountConcat([s[0]], s[1..], n);
    assert [s[0]][..0] == [];
  }

  /** B is symmetric. */
  lemma {:induction false} CoCountSymmetric(h: seq<Draw>, x: int, y: int)
    ensures CoCount(h, x, y) == CoCount(h, y, x)
  {
    if h != [] {
      CoCountSymmetric(h[..|h| - 1], x, y);
    }
  }

  /** For two different numbers, one draw adds the product of their counts:
      each pair of positions holding x and y is counted once, whichever
      comes first. In a draw without repeated balls this is 1 exactly when
      both numbers are drawn. */
  lemma {:induction false} PairCountProduct(s: seq<int>, x: int, y: int)
    requires x != y
    ensures PairCount(s, x, y) == Count(s, x) * Count(s, y)
  {
    if s != [] {
      var t := s[1..];
      PairCountProduct(t, x, y);
      CountHead(s, x);
      CountHead(s, y);
      var a := if s[0] == x then 1 else 0;
      var b := if s[0] == y then 1 else 0;
      var cx, cy := Count(t, x), Count(t, y);
      assert a * b == 0;
      assert PairCount(s, x, y) == a * cy + b * cx + cx * cy;
      assert Count(s, x) * Count(s, y) == (a + cx) * (b + cy);
      assert (a + cx) * (b + cy) == a * b + a * cy + b * cx + cx * cy;
    }
  }

  /** On the diagonal, a number drawn c times in one draw adds c·(c-1); a
      draw without repeated balls adds nothing. */
  lemma {:induction false} PairCountDiagonal(s: seq<int>, x: int)
    ensures PairCount(s, x, x) == Count(s, x) * (Count(s, x) - 1)
  {
    if s != [] {
      var t := s[1..];
      PairCountDiagonal(t, x);
      CountHead(s, x);
      var c: int := Count(t, x);
      if s[0] == x {
        assert PairCount(s, x, x) == 2 * c + c * (c - 1);
        assert (c + 1) * c == 2 * c + c * (c - 1);
      }
    }
  }

  lemma {:induction false} TransitionRowSumPartial(h: seq<Draw>, x: int, k: nat)
    requires RowTotal(h, x, MaxNumber) > 0
    ensures TransitionRowSum(h, x, k) == (RowTotal(h, x, k) as real) / (RowTotal(h, x, MaxNumber) as real)
  {
    if k > 0 {
      TransitionRowSumPartial(h, x, k - 1);
      DivAdd(RowTotal(h, x, k - 1) as real, TransCount(h, x, k) as real, RowTotal(h, x, MaxNumber) as real);
    }
  }

  lemma DivAdd(a: real, b: real, t: real)
    requires t > 0.0
    ensures a / t + b / t == (a + b) / t
  {
  }

  lemma DivUnit(a: real, t: real)
    requires 0.0 <= a <= t && t > 0.0
    ensures 0.0 <= a / t <= 1.0
  {
  }

  /** Every row of the normalised A sums to 1, or is all zeros when its raw
      sum is 0; every entry lies in [0, 1]. */
  lemma RowStochastic(h: seq<Draw>, x: int)
    ensures RowTotal(h, x, MaxNumber) > 0 ==> TransitionRowSum(h, x, MaxNumber) == 1.0
    ensures RowTotal(h, x, MaxNumber) == 0 ==> forall y :: Transition(h, x, y) == 0.0
    ensures forall y :: 1 <= y <= MaxNumber ==> 0.0 <= Transition(h, x, y) <= 1.0
  {
    if RowTotal(h, x, MaxNumber) > 0 {
      TransitionRowSumPartial(h, x, MaxNumber);
    }
    forall y | 1 <= y <= MaxNumber
      ensures 0.0 <= Transition(h, x, y) <= 1.0
    {
      var total := RowTotal(h, x, MaxNumber);
      if total > 0 {
        RowTotalCovers(h, x, y, MaxNumber);
        DivUnit(TransCount(h, x, y) as real, total as real);
      }
    }
  }

  lemma {:induction false} RowTotalCovers(h: seq<Draw>, x: int, y: int, k: nat)
    requires 1 <= y <= k
    ensures TransCount(h, x, y) <= RowTotal(h, x, k)
  {
    if y < k {
      RowTotalCovers(h, x, y, k - 1);
    }
  }

  /** With fewer than two draws there is no transition, so every raw row sum
      is 0. */
  lemma {:induction false} RowTotalShortLog(h: seq<Draw>, x: int, k: nat)
    requires |h| < 2
    ensures RowTotal(h, x, k) == 0
  {
    if k > 0 {
      RowTotalShortLog(h, x, k - 1);
    }
  }

  // ---------------------------------------------------------------------
  // build_matrices

  predicate Square(m: array2<real>) {
    m.Length0 == MaxNumber && m.Length1 == MaxNumber
  }

  /** m holds B for the log h. */
  ghost predicate IsCoOccurrence(m: array2<real>, h: seq<Draw>)
    reads m
  {
    && Square(m)
    && forall u, v :: 0 <= u < MaxNumber && 0 <= v < MaxNumber ==> m[u, v] == CoCount(h, u + 1, v + 1) as real
  }

  /** m holds the normalised A for the log h. */
  ghost predicate IsTransition(m: array2<real>, h: seq<Draw>)
    reads m
  {
    && Square(m)
    && forall u, v :: 0 <= u < MaxNumber && 0 <= v < MaxNumber ==> m[u, v] == Transition(h, u + 1, v + 1)
  }

  /** What ball x followed by the balls s adds at entry (u, v): one for
      each y in s with (x, y) == (u + 1, v + 1). */
  function RowGain(x: int, s: seq<int>, u: int, v: int): nat {
    if x == u + 1 then Count(s, v + 1) else 0
  }

  lemma RowGainEmpty(x: int, s: seq<int>, u: int, v: int)
    requires s == []
    ensures RowGain(x, s, u, v) == 0
  {
  }

  lemma RowGainAppend(x: int, s: seq<int>, y: int, u: int, v: int)
    ensures RowGain(x, s + [y], u, v) == RowGain(x, s, u, v) + (if x == u + 1 && y == v + 1 then 1 else 0)
  {
    CountAppend(s, y, v + 1);
  }

  /** What ball x followed by the balls s adds at (u, v) of B: both
      orientations of each pair (x, y). */
  function PairGain(x: int, s: seq<int>, u: int, v: int): nat {
    RowGain(x, s, u, v) + RowGain(x, s, v, u)
  }

  /** The inner loop over j > i of the pair scan: each in-range pair
      (balls[i], balls[j]) adds 1 at both orientations. */
  method AddPairsFrom(b: array2<real>, balls: seq<int>, i: int)
    requires Square(b) && 0 <= i < |balls|
    modifies b
    ensures forall u, v :: 0 <= u < MaxNumber && 0 <= v < MaxNumber ==>
      b[u, v] == old(b[u, v]) + PairGain(balls[i], balls[i + 1..], u, v) as real
  {
    var x := balls[i];
    var rest := balls[i + 1..];
    forall u, v | 0 <= u < MaxNumber && 0 <= v < MaxNumber
      ensures b[u, v] == old(b[u, v]) + PairGain(x, rest[..0], u, v) as real
    {
      RowGainEmpty(x, rest[..0], u, v);
      RowGainEmpty(x, rest[..0], v, u);
    }
    for j := 0 to |rest|
      invariant forall u, v :: 0 <= u < MaxNumber && 0 <= v < MaxNumber ==>
        b[u, v] == old(b[u, v]) + PairGain(x, rest[..j], u, v) as real
    {
      var y := rest[j];
      if 1 <= x <= MaxNumber && 1 <= y <= MaxNumber {
        b[x - 1, y - 1] := b[x - 1, y - 1] + 1.0;
        b[y - 1, x - 1] := b[y - 1, x - 1] + 1.0;
      }
      assert rest[..j + 1] == rest[..j] + [y];
      forall u, v | 0 <= u < MaxNumber && 0 <= v < MaxNumber
        ensures PairGain(x, rest[..j + 1], u, v)
             == PairGain(x, rest[..j], u, v) + (if x == u + 1 && y == v + 1 then 1 else 0) + (if x == v + 1 && y == u + 1 then 1 else 0)
      {
        RowGainAppend(x, rest[..j], y, u, v);
        RowGainAppend(x, rest[..j], y, v, u);
      }
    }
    assert rest[..|rest|] == rest;
  }

  /** PairCount unfolds at its first ball into the two row gains. */
  lemma PairCountHead(s: seq<int>, u: int, v: int)
    requires s != []
    ensures PairCount(s, u + 1, v + 1) == PairGain(s[0], s[1..], u, v) + PairCount(s[1..], u + 1, v + 1)
  {
  }

  /** One draw's contribution to B: the pair scan over positions i < j. */
  method AddDrawPairs(b: array2<real>, balls: seq<int>)
    requires Square(b)
    modifies b
    ensures forall u, v :: 0 <= u < MaxNumber && 0 <= v < MaxNumber ==>
      b[u, v] == old(b[u, v]) + PairCount(balls, u + 1, v + 1) as real
  {
    for i := 0 to |balls|
      invariant forall u, v :: 0 <= u < MaxNumber && 0 <= v < MaxNumber ==>
        b[u, v] + PairCount(balls[i..], u + 1, v + 1) as real == old(b[u, v]) + PairCount(balls, u + 1, v + 1) as real
    {
      AddPairsFrom(b, balls, i);
      ghost var tail := balls[i..];
      assert tail[0] == balls[i] && tail[1..] == balls[i + 1..];
      forall u, v | 0 <= u < MaxNumber && 0 <= v < MaxNumber
        ensures PairCount(tail, u + 1, v + 1) == PairGain(tail[0], tail[1..], u, v) + PairCount(tail[1..], u + 1, v + 1)
      {
        PairCountHead(tail, u, v);
      }
    }
  }

  /** Matrix B: the pair scan over every draw. */
  method BuildCoOccurrence(draws: seq<Draw>) returns (b: array2<real>)
    ensures fresh(b) && IsCoOccurrence(b, draws)
  {
    b := new real[MaxNumber, MaxNumber]((_, _) => 0.0);
    for t := 0 to |draws|
      invariant IsCoOccurrence(b, draws[..t])
    {
      AddDrawPairs(b, draws[t].balls);
      assert draws[..t + 1][..t] == draws[..t];
    }
    assert draws[..|draws|] == draws;
  }

  /** For ball x of draw t, each in-range ball y of draw t+1 adds 1 at
      (x, y). */
  method AddRowCounts(a: array2<real>, x: int, next: seq<int>)
    requires Square(a)
    modifies a
    ensures forall u, v :: 0 <= u < MaxNumber && 0 <= v < MaxNumber ==>
      a[u, v] == old(a[u, v]) + RowGain(x, next, u, v) as real
  {
    forall u, v | 0 <= u < MaxNumber && 0 <= v < MaxNumber
      ensures a[u, v] == old(a[u, v]) + RowGain(x, next[..0], u, v) as real
    {
      RowGainEmpty(x, next[..0], u, v);
    }
    for j := 0 to |next|
      invariant forall u, v :: 0 <= u < MaxNumber && 0 <= v < MaxNumber ==>
        a[u, v] == old(a[u, v]) + RowGain(x, next[..j], u, v) as real
    {
      var y := next[j];
      if 1 <= x <= MaxNumber && 1 <= y <= MaxNumber {
        a[x - 1, y - 1] := a[x - 1, y - 1] + 1.0;
      }
      assert next[..j + 1] == next[..j] + [y];
      forall u, v | 0 <= u < MaxNumber && 0 <= v < MaxNumber
        ensures RowGain(x, next[..j + 1], u, v) == RowGain(x, next[..j], u, v) + (if x == u + 1 && y == v + 1 then 1 else 0)
      {
        RowGainAppend(x, next[..j], y, u, v);
      }
    }
    assert next[..|next|] == next;
  }

  /** What the balls curr followed by the balls next add at (u, v). */
  function CrossGain(curr: seq<int>, next: seq<int>, u: int, v: int): nat {
    Count(curr, u + 1) * Count(next, v + 1)
  }

  lemma CrossGainEmpty(curr: seq<int>, next: seq<int>, u: int, v: int)
    requires curr == []
    ensures CrossGain(curr, next, u, v) == 0
  {
  }

  lemma CrossGainAppend(curr: seq<int>, x: int, next: seq<int>, u: int, v: int)
    ensures CrossGain(curr + [x], next, u, v) == CrossGain(curr, next, u, v) + RowGain(x, next, u, v)
  {
    CountAppend(curr, x, u + 1);
    var c := Count(curr, u + 1);
    var d := if x == u + 1 then 1 else 0;
    assert (c + d) * Count(next, v + 1) == c * Count(next, v + 1) + d * Count(next, v + 1);
  }

  /** One pair of consecutive draws adds Count(curr, x)·Count(next, y) at (x, y). */
  method AddCrossCounts(a: array2<real>, curr: seq<int>, next: seq<int>)
    requires Square(a)
    modifies a
    ensures forall u, v :: 0 <= u < MaxNumber && 0 <= v < MaxNumber ==>
      a[u, v] == old(a[u, v]) + CrossGain(curr, next, u, v) as real
  {
    forall u, v | 0 <= u < MaxNumber && 0 <= v < MaxNumber
      ensures a[u, v] == old(a[u, v]) + CrossGain(curr[..0], next, u, v) as real
    {
      CrossGainEmpty(curr[..0], next, u, v);
    }
    for i := 0 to |curr|
      invariant forall u, v :: 0 <= u < MaxNumber && 0 <= v < MaxNumber ==>
        a[u, v] == old(a[u, v]) + CrossGain(curr[..i], next, u, v) as real
    {
      AddRowCounts(a, curr[i], next);
      assert curr[..i + 1] == curr[..i] + [curr[i]];
      forall u, v | 0 <= u < MaxNumber && 0 <= v < MaxNumber
        ensures CrossGain(curr[..i + 1], next, u, v) == CrossGain(curr[..i], next, u, v) + RowGain(curr[i], next, u, v)
      {
        CrossGainAppend(curr[..i], curr[i], next, u, v);
      }
    }
    assert curr[..|curr|] == curr;
  }

  /** Raw matrix A: the cross counts of every pair of consecutive draws. */
  method BuildTransitionCounts(draws: seq<Draw>) returns (a: array2<real>)
    ensures fresh(a) && Square(a)
    ensures forall u, v :: 0 <= u < MaxNumber && 0 <= v < MaxNumber ==> a[u, v] == TransCount(draws, u + 1, v + 1) as real
  {
    a := new real[MaxNumber, MaxNumber]((_, _) => 0.0);
    if |draws| < 2 {
      return;
    }
    for t := 0 to |draws| - 1
      invariant forall u, v :: 0 <= u < MaxNumber && 0 <= v < MaxNumber ==> a[u, v] == TransCount(draws[..t + 1], u + 1, v + 1) as real
    {
      AddCrossCounts(a, draws[t].balls, draws[t + 1].balls);
      assert draws[..t + 2][..t + 1] == draws[..t + 1];
    }
    assert draws[..|draws|] == draws;
  }

  /** Σ_{v<k} m[u, v]: `mat_a.sum(axis=1)` over the first k columns. */
  function RowSum(m: array2<real>, u: int, k: nat): real
    reads m
    requires Square(m) && 0 <= u < MaxNumber && k <= MaxNumber
  {
    if k == 0 then 0.0 else RowSum(m, u, k - 1) + m[u, k - 1]
  }

  lemma {:induction false} RowSumIsTotal(m: array2<real>, h: seq<Draw>, u: int, k: nat)
    requires Square(m) && 0 <= u < MaxNumber && k <= MaxNumber
    requires forall u, v :: 0 <= u < MaxNumber && 0 <= v < MaxNumber ==> m[u, v] == TransCount(h, u + 1, v + 1) as real
    ensures RowSum(m, u, k) == RowTotal(h, u + 1, k) as real
  {
    if k > 0 {
      RowSumIsTotal(m, h, u, k - 1);
    }
  }

  /** `np.divide(mat_a, row_sums, out=zeros, where=row_sums != 0)`: a new
      matrix whose rows are divided by their sums, rows summing to 0 left
      at 0. */
  method NormalizeRows(raw: array2<real>, ghost h: seq<Draw>) returns (a: array2<real>)
    requires Square(raw)
    requires forall u, v :: 0 <= u < MaxNumber && 0 <= v < MaxNumber ==> raw[u, v] == TransCount(h, u + 1, v + 1) as real
    ensures fresh(a) && IsTransition(a, h)
  {
    var sums := seq(MaxNumber, u requires 0 <= u < MaxNumber reads raw => RowSum(raw, u, MaxNumber));
    a := new real[MaxNumber, MaxNumber];
    forall u, v | 0 <= u < MaxNumber && 0 <= v < MaxNumber {
      a[u, v] := if sums[u] != 0.0 then raw[u, v] / sums[u] else 0.0;
    }
    forall u, v | 0 <= u < MaxNumber && 0 <= v < MaxNumber
      ensures a[u, v] == Transition(h, u + 1, v + 1)
    {
      RowSumIsTotal(raw, h, u, MaxNumber);
    }
  }


  // ---------------------------------------------------------------------
  // calculate_matrix_prediction: specification

  ghost predicate NonNegative(m: array2<real>)
    reads m
  {
    forall u, v :: 0 <= u < m.Length0 && 0 <= v < m.Length1 ==> 0.0 <= m[u, v]
  }

  /** Both built matrices have no negative entry. */
  lemma BuiltNonNegative(a: array2<real>, b: array2<real>, h: seq<Draw>)
    requires IsTransition(a, h) && IsCoOccurrence(b, h)
    ensures NonNegative(a) && NonNegative(b)
  {
    forall u, v | 0 <= u < MaxNumber && 0 <= v < MaxNumber
      ensures 0.0 <= a[u, v]
    {
      RowStochastic(h, u + 1);
    }
  }

  /** Unscaled `time_scores[c]`: the sum of column c over the rows x-1 of A,
      for each in-range ball x of the latest draw (once per occurrence). */
  function TimeRaw(a: array2<real>, latest: seq<int>, c: int): real
    reads a
    requires Square(a) && 0 <= c < MaxNumber
  {
    if latest == [] then 0.0
    else
      var x := latest[|latest| - 1];
      TimeRaw(a, latest[..|latest| - 1], c) + (if 1 <= x <= MaxNumber then a[x - 1, c] else 0.0)
  }

  /** `v.max()` of a non-empty vector. */
  function MaxOf(s: seq<real>): real
    requires s != []
  {
    if |s| == 1 then s[0]
    else
      var m := MaxOf(s[..|s| - 1]);
      if s[|s| - 1] > m then s[|s| - 1] else m
  }

  /** `v / v.max()` when the maximum is positive, v itself otherwise. */
  function Scaled(s: seq<real>): (r: seq<real>)
    ensures |r| == |s|
  {
    if s != [] && MaxOf(s) > 0.0 then seq(|s|, i requires 0 <= i < |s| => s[i] / MaxOf(s)) else s
  }

  /** The vector of unscaled time scores and its scaled form. */
  function TimeRawScores(a: array2<real>, latest: seq<int>): (r: seq<real>)
    reads a
    requires Square(a)
    ensures |r| == MaxNumber
  {
    seq(MaxNumber, c requires 0 <= c < MaxNumber reads a => TimeRaw(a, latest, c))
  }

  function TimeScores(a: array2<real>, latest: seq<int>): seq<real>
    reads a
    requires Square(a)
  {
    Scaled(TimeRawScores(a, latest))
  }

  /** Indices of the 0..24 range. */
  predicate IsIndexList(s: seq<int>) {
    forall i :: 0 <= i < |s| ==> 0 <= s[i] < MaxNumber
  }

  /** Σ of B[c][o] over the members o of the cluster other than c. */
  function AffinitySum(b: array2<real>, c: int, cluster: seq<int>): real
    reads b
    requires Square(b) && 0 <= c < MaxNumber && IsIndexList(cluster)
  {
    if cluster == [] then 0.0
    else
      var o := cluster[|cluster| - 1];
      AffinitySum(b, c, cluster[..|cluster| - 1]) + (if o == c then 0.0 else b[c, o])
  }

  /** How many members of the cluster differ from c (the length of the
      `affinities` list). */
  function Others(c: int, cluster: seq<int>): nat {
    if cluster == [] then 0
    else Others(c, cluster[..|cluster| - 1]) + (if cluster[|cluster| - 1] == c then 0 else 1)
  }

  /** Unscaled `space_scores[c]`: the mean affinity, 0 for an empty list. */
  function SpaceRaw(b: array2<real>, c: int, cluster: seq<int>): real
    reads b
    requires Square(b) && 0 <= c < MaxNumber && IsIndexList(cluster)
  {
    if Others(c, cluster) == 0 then 0.0 else AffinitySum(b, c, cluster) / (Others(c, cluster) as real)
  }

  function SpaceRawScores(b: array2<real>, cluster: seq<int>): (r: seq<real>)
    reads b
    requires Square(b) && IsIndexList(cluster)
    ensures |r| == MaxNumber
  {
    seq(MaxNumber, c requires 0 <= c < MaxNumber reads b => SpaceRaw(b, c, cluster))
  }

  function SpaceScores(b: array2<real>, cluster: seq<int>): seq<real>
    reads b
    requires Square(b) && IsIndexList(cluster)
  {
    Scaled(SpaceRawScores(b, cluster))
  }

  /** The top-15 time candidates `time_scores.argsort()[::-1][:15]`: 15
      different indices, none with a lower time score than any index left
      out (the order among equal scores is left open). */
  ghost predicate IsTimeCluster(cluster: seq<int>, ts: seq<real>)
    requires |ts| == MaxNumber
  {
    && |cluster| == 15
    && IsIndexList(cluster)
    && (forall i, j :: 0 <= i < j < |cluster| ==> cluster[i] != cluster[j])
    && (forall c, i :: 0 <= c < MaxNumber && c !in cluster && 0 <= i < |cluster| ==> ts[c] <= ts[cluster[i]])
  }

  /** One `{"number", "score", "score_time", "score_space"}` entry. */
  datatype MatrixScored = MatrixScored(number: int, score: real, scoreTime: real, scoreSpace: real)

  /** The `{"numbers", "details"}` result. */
  datatype MatrixPrediction = MatrixPrediction(numbers: seq<int>, details: seq<MatrixScored>)

  /** The entry of number n: 0.7·time + 0.3·space. */
  function MatrixScoredFor(ts: seq<real>, ss: seq<real>, n: int): MatrixScored
    requires |ts| == MaxNumber && |ss| == MaxNumber && InRange(n)
  {
    MatrixScored(n, 0.7 * ts[n - 1] + 0.3 * ss[n - 1], ts[n - 1], ss[n - 1])
  }

  function MatrixScoreKey(e: MatrixScored): real {
    e.score
  }

  function MatrixNumber(e: MatrixScored): int {
    e.number
  }

  /** The prediction for the score vectors ts (time) and ss (space): ten
      different numbers of 1..25 with their own entries, stably sorted by
      blended score (lower number first on ties), each ahead of every number
      left out. */
  ghost predicate IsMatrixPrediction(r: MatrixPrediction, ts: seq<real>, ss: seq<real>)
    requires |ts| == MaxNumber && |ss| == MaxNumber
  {
    && |r.details| == 10
    && r.numbers == Project(r.details, MatrixNumber)
    && (forall i :: 0 <= i < |r.details| ==>
          InRange(r.details[i].number) && r.details[i] == MatrixScoredFor(ts, ss, r.details[i].number))
    && (forall i, j :: 0 <= i < j < |r.numbers| ==> r.numbers[i] != r.numbers[j])
    && SortedBy(r.details, MatrixScoreKey, MatrixNumber)
    && (forall n, i :: InRange(n) && n !in r.numbers && 0 <= i < |r.details| ==>
          Before(MatrixScoreKey, MatrixNumber, r.details[i], MatrixScoredFor(ts, ss, n)))
  }

  // ---------------------------------------------------------------------
  // Properties of the scores

  /** The maximum bounds every entry and is one of them. */
  lemma {:induction false} MaxOfFacts(s: seq<real>) returns (k: int)
    requires s != []
    ensures forall i :: 0 <= i < |s| ==> s[i] <= MaxOf(s)
    ensures 0 <= k < |s| && s[k] == MaxOf(s)
  {
    if |s| == 1 {
      k := 0;
    } else {
      var p := s[..|s| - 1];
      var j := MaxOfFacts(p);
      assert forall i :: 0 <= i < |p| ==> s[i] == p[i];
      k := if s[|s| - 1] > MaxOf(p) then |s| - 1 else j;
    }
  }

  /** Max-scaling a vector without negative entries puts every entry in
      [0, 1], keeps the order of any two entries, and, when the maximum is
      positive, brings the maximum to exactly 1. */
  lemma ScaledFacts(s: seq<real>)
    requires forall i :: 0 <= i < |s| ==> 0.0 <= s[i]
    ensures |Scaled(s)| == |s|
    ensures forall i :: 0 <= i < |s| ==> 0.0 <= Scaled(s)[i] <= 1.0
    ensures forall i, j :: 0 <= i < |s| && 0 <= j < |s| ==> (s[i] <= s[j] <==> Scaled(s)[i] <= Scaled(s)[j])
    ensures s != [] && MaxOf(s) > 0.0 ==> exists i :: 0 <= i < |s| && Scaled(s)[i] == 1.0
  {
    if s != [] {
      var k := MaxOfFacts(s);
      var m := MaxOf(s);
      if m > 0.0 {
        ScaledByPositive(s, m, k);
      } else {
        forall i | 0 <= i < |s|
          ensures s[i] <= 1.0
        {
          assert s[i] <= m;
        }
      }
    }
  }

  /** The facts of ScaledFacts for a positive maximum m reached at k. */
  lemma ScaledByPositive(s: seq<real>, m: real, k: int)
    requires m > 0.0 && 0 <= k < |s| && s[k] == m
    requires forall i :: 0 <= i < |s| ==> 0.0 <= s[i] <= m
    ensures var r := seq(|s|, i requires 0 <= i < |s| => s[i] / m);
      && (forall i :: 0 <= i < |s| ==> 0.0 <= r[i] <= 1.0)
      && (forall i, j :: 0 <= i < |s| && 0 <= j < |s| ==> (s[i] <= s[j] <==> r[i] <= r[j]))
      && r[k] == 1.0
  {
    var r := seq(|s|, i requires 0 <= i < |s| => s[i] / m);
    forall i | 0 <= i < |s|
      ensures 0.0 <= r[i] <= 1.0
    {
      DivUnit(s[i], m);
    }
    forall i, j | 0 <= i < |s| && 0 <= j < |s|
      ensures s[i] <= s[j] <==> r[i] <= r[j]
    {
      DivMonotone(s[i], s[j], m);
    }
    assert r[k] == s[k] / m;
    DivSelf(m);
  }

  lemma DivSelf(m: real)
    requires m > 0.0
    ensures m / m == 1.0
  {
  }

  lemma DivMonotone(x: real, y: real, t: real)
    requires t > 0.0
    ensures x <= y <==> x / t <= y / t
  {
    if x <= y {
      assert y / t - x / t == (y - x) / t;
    } else {
      assert x / t - y / t == (x - y) / t;
    }
  }

  /** With A non-negative, every unscaled time score is non-negative. */
  lemma {:induction false} TimeRawNonNegative(a: array2<real>, latest: seq<int>, c: int)
    requires Square(a) && NonNegative(a) && 0 <= c < MaxNumber
    ensures 0.0 <= TimeRaw(a, latest, c)
  {
    if latest != [] {
      TimeRawNonNegative(a, latest[..|latest| - 1], c);
    }
  }

  /** With A row-normalised, a time score is at most the number of in-range
      balls of the latest draw: each contributes at most 1. */
  lemma {:induction false} TimeRawBound(a: array2<real>, h: seq<Draw>, latest: seq<int>, c: int)
    requires IsTransition(a, h) && 0 <= c < MaxNumber
    ensures TimeRaw(a, latest, c) <= CountWhere(latest, InRange) as real
  {
    if latest != [] {
      TimeRawBound(a, h, latest[..|latest| - 1], c);
      var x := latest[|latest| - 1];
      if 1 <= x <= MaxNumber {
        RowStochastic(h, x);
        assert a[x - 1, c] == Transition(h, x, c + 1);
      }
    }
  }

  /** With B non-negative, every affinity sum and mean is non-negative. */
  lemma {:induction false} AffinitySumNonNegative(b: array2<real>, c: int, cluster: seq<int>)
    requires Square(b) && NonNegative(b) && 0 <= c < MaxNumber && IsIndexList(cluster)
    ensures 0.0 <= AffinitySum(b, c, cluster)
  {
    if cluster != [] {
      AffinitySumNonNegative(b, c, cluster[..|cluster| - 1]);
    }
  }

  /** The time and space vectors both lie in [0, 1] entrywise, and so does
      every blended score. */
  lemma ScoresInUnit(a: array2<real>, b: array2<real>, latest: seq<int>, cluster: seq<int>)
    requires Square(a) && Square(b) && NonNegative(a) && NonNegative(b) && IsIndexList(cluster)
    ensures |TimeScores(a, latest)| == MaxNumber && |SpaceScores(b, cluster)| == MaxNumber
    ensures forall c :: 0 <= c < MaxNumber ==> 0.0 <= TimeScores(a, latest)[c] <= 1.0
    ensures forall c :: 0 <= c < MaxNumber ==> 0.0 <= SpaceScores(b, cluster)[c] <= 1.0
    ensures forall n :: InRange(n) ==> 0.0 <= MatrixScoredFor(TimeScores(a, latest), SpaceScores(b, cluster), n).score <= 1.0
  {
    var tr := TimeRawScores(a, latest);
    forall c | 0 <= c < MaxNumber
      ensures 0.0 <= tr[c]
    {
      TimeRawNonNegative(a, latest, c);
    }
    ScaledFacts(tr);
    var sr := SpaceRawScores(b, cluster);
    forall c | 0 <= c < MaxNumber
      ensures 0.0 <= sr[c]
    {
      AffinitySumNonNegative(b, c, cluster);
    }
    ScaledFacts(sr);
  }

  // ---------------------------------------------------------------------
  // calculate_matrix_prediction: the computation

  /** `time_scores += mat_a[x-1]` for every in-range ball x of the latest
      draw, then max-scaled. */
  method TimeScoresOf(a: array2<real>, latest: seq<int>) returns (t: seq<real>)
    requires Square(a)
    ensures t == TimeScores(a, latest)
  {
    t := seq(MaxNumber, _ => 0.0);
    for i := 0 to |latest|
      invariant |t| == MaxNumber
      invariant forall c :: 0 <= c < MaxNumber ==> t[c] == TimeRaw(a, latest[..i], c)
    {
      var x := latest[i];
      assert latest[..i + 1][..i] == latest[..i];
      if 1 <= x <= MaxNumber {
        t := seq(MaxNumber, c requires 0 <= c < MaxNumber && |t| == MaxNumber reads a => t[c] + a[x - 1, c]);
      }
    }
    assert latest[..|latest|] == latest;
    assert t == TimeRawScores(a, latest);
    if MaxOf(t) > 0.0 {
      var m := MaxOf(t);
      t := seq(MaxNumber, c requires 0 <= c < MaxNumber && |t| == MaxNumber => t[c] / m);
    }
  }

  /** A ranked time candidate: its index and its time score. */
  datatype Candidate = Candidate(index: int, value: real)

  function CandidateValue(e: Candidate): real {
    e.value
  }

  /** Equal time scores are taken from the highest index down, as the
      reversal of an ascending argsort does. */
  function CandidateRank(e: Candidate): int {
    MaxNumber - 1 - e.index
  }

  /** `time_scores.argsort()[::-1][:15]`. */
  method TopCluster(ts: seq<real>) returns (cluster: seq<int>)
    requires |ts| == MaxNumber
    ensures IsTimeCluster(cluster, ts)
  {
    var items := seq(MaxNumber, i requires 0 <= i < MaxNumber => Candidate(MaxNumber - 1 - i, ts[MaxNumber - 1 - i]));
    var top := TopK(items, 15, CandidateValue, CandidateRank);
    cluster := seq(|top|, i requires 0 <= i < |top| => top[i].index);
    forall i | 0 <= i < |top|
      ensures 0 <= top[i].index < MaxNumber && top[i].value == ts[top[i].index]
    {
      assert top[i] in items;
    }
    forall i, j | 0 <= i < j < |cluster|
      ensures cluster[i] != cluster[j]
    {
      assert CandidateRank(top[i]) != CandidateRank(top[j]);
    }
    forall c, i | 0 <= c < MaxNumber && c !in cluster && 0 <= i < |cluster|
      ensures ts[c] <= ts[cluster[i]]
    {
      var y := items[MaxNumber - 1 - c];
      assert y in items;
      forall j | 0 <= j < |top|
        ensures top[j] != y
      {
        assert cluster[j] == top[j].index && cluster[j] in cluster;
      }
      assert Before(CandidateValue, CandidateRank, top[i], y);
    }
  }

  /** The `affinities` loop for candidate c: the mean of B[c][o] over the
      cluster members o other than c, 0 when there are none. */
  method MeanAffinity(b: array2<real>, c: int, cluster: seq<int>) returns (mean: real)
    requires Square(b) && 0 <= c < MaxNumber && IsIndexList(cluster)
    ensures mean == SpaceRaw(b, c, cluster)
  {
    var sum, n := 0.0, 0;
    for i := 0 to |cluster|
      invariant sum == AffinitySum(b, c, cluster[..i]) && n == Others(c, cluster[..i])
    {
      var other := cluster[i];
      assert cluster[..i + 1][..i] == cluster[..i];
      if c == other {
        continue;
      }
      sum := sum + b[c, other];
      n := n + 1;
    }
    assert cluster[..|cluster|] == cluster;
    mean := if n > 0 then sum / (n as real) else 0.0;
  }

  /** `space_scores`: the mean affinity of every candidate, max-scaled. */
  method SpaceScoresOf(b: array2<real>, cluster: seq<int>) returns (s: seq<real>)
    requires Square(b) && IsIndexList(cluster)
    ensures s == SpaceScores(b, cluster)
  {
    s := [];
    for c := 0 to MaxNumber
      invariant |s| == c
      invariant forall d :: 0 <= d < c ==> s[d] == SpaceRaw(b, d, cluster)
    {
      var mean := MeanAffinity(b, c, cluster);
      s := s + [mean];
    }
    assert s == SpaceRawScores(b, cluster);
    if MaxOf(s) > 0.0 {
      var m := MaxOf(s);
      s := seq(MaxNumber, c requires 0 <= c < MaxNumber && |s| == MaxNumber => s[c] / m);
    }
  }

  /** The `results` list in number order, stably sorted by blended score,
      first 10 kept. */
  method RankBlended(ts: seq<real>, ss: seq<real>) returns (r: MatrixPrediction)
    requires |ts| == MaxNumber && |ss| == MaxNumber
    ensures IsMatrixPrediction(r, ts, ss)
  {
    var results: seq<MatrixScored> := [];
    for c := 0 to MaxNumber
      invariant |results| == c
      invariant forall i :: 0 <= i < c ==> results[i] == MatrixScoredFor(ts, ss, i + 1)
    {
      results := results + [MatrixScoredFor(ts, ss, c + 1)];
    }
    var top := TopK(results, 10, MatrixScoreKey, MatrixNumber);
    forall i | 0 <= i < |top|
      ensures InRange(top[i].number) && top[i] == MatrixScoredFor(ts, ss, top[i].number)
    {
      assert top[i] in results;
    }
    forall i, j | 0 <= i < j < |top|
      ensures top[i].number != top[j].number
    {
      assert MatrixNumber(top[i]) != MatrixNumber(top[j]);
    }
    forall n, i | InRange(n) && n !in Project(top, MatrixNumber) && 0 <= i < |top|
      ensures Before(MatrixScoreKey, MatrixNumber, top[i], MatrixScoredFor(ts, ss, n))
    {
      assert results[n - 1] in results;
    }
    r := MatrixPrediction(Project(top, MatrixNumber), top);
  }

  /** `calculate_matrix_prediction` on given matrices and latest draw. An
      empty latest draw gives no numbers and no details. Otherwise the
      cluster is a top-15 of the time scores, and the result ranks the 25
      numbers by 0.7·time + 0.3·space; with non-negative matrices every
      score lies in [0, 1]. */
  method PredictFromMatrices(a: array2<real>, b: array2<real>, latest: seq<int>)
    returns (r: MatrixPrediction, ghost cluster: seq<int>)
    requires Square(a) && Square(b)
    ensures latest == [] ==> r == MatrixPrediction([], [])
    ensures latest != [] ==> IsIndexList(cluster) && IsTimeCluster(cluster, TimeScores(a, latest))
    ensures latest != [] ==> IsMatrixPrediction(r, TimeScores(a, latest), SpaceScores(b, cluster))
    ensures latest != [] && NonNegative(a) && NonNegative(b) ==>
      forall i :: 0 <= i < |r.details| ==> 0.0 <= r.details[i].score <= 1.0
  {
    if latest == [] {
      return MatrixPrediction([], []), [];
    }
    var ts := TimeScoresOf(a, latest);
    var top15 := TopCluster(ts);
    var ss := SpaceScoresOf(b, top15);
    r := RankBlended(ts, ss);
    cluster := top15;
    if NonNegative(a) && NonNegative(b) {
      ScoresInUnit(a, b, latest, cluster);
    }
  }

  // ---------------------------------------------------------------------
  // The module-level cache

  /** The globals `_MATRIX_A`, `_MATRIX_B` and `_LAST_DRAW_COUNT`, with the
      settled log the matrices were last built from as ghost state. */
  class MatrixCache {
    var matrixA: array2?<real>
    var matrixB: array2?<real>
    var lastDrawCount: nat
    ghost var built: seq<Draw>

    /** Both matrices are unset, or both are set, distinct, and hold A and B
        of the log they were built from; the cached count is its length. */
    ghost predicate Valid()
      reads this, matrixA, matrixB
    {
      && (matrixA == null <==> matrixB == null)
      && (matrixA != null ==> matrixA != matrixB && IsTransition(matrixA, built) && IsCoOccurrence(matrixB, built))
      && lastDrawCount == |built|
    }

    /** Module load: no matrices, count 0. */
    constructor ()
      ensures Valid() && matrixA == null && matrixB == null && lastDrawCount == 0
    {
      matrixA, matrixB := null, null;
      lastDrawCount := 0;
      built := [];
    }

    /** `build_matrices(draws)`: the count becomes |draws| and both matrices
        are rebuilt from draws; an empty log gives two zero matrices. */
    method BuildMatrices(draws: seq<Draw>)
      modifies this
      ensures Valid() && built == draws && lastDrawCount == |draws|
      ensures matrixA != null && fresh(matrixA) && fresh(matrixB)
      ensures draws == [] ==> forall u, v :: 0 <= u < MaxNumber && 0 <= v < MaxNumber ==>
        matrixA[u, v] == 0.0 && matrixB[u, v] == 0.0
    {
      lastDrawCount := |draws|;
      built := draws;
      var zeroA := new real[MaxNumber, MaxNumber]((_, _) => 0.0);
      var zeroB := new real[MaxNumber, MaxNumber]((_, _) => 0.0);
      if draws == [] {
        forall u, v | 0 <= u < MaxNumber && 0 <= v < MaxNumber
          ensures zeroA[u, v] == Transition(draws, u + 1, v + 1)
        {
          RowTotalShortLog(draws, u + 1, MaxNumber);
        }
        matrixA, matrixB := zeroA, zeroB;
        return;
      }
      var b := BuildCoOccurrence(draws);
      var raw := BuildTransitionCounts(draws);
      var a := NormalizeRows(raw, draws);
      matrixA, matrixB := a, b;
    }

    /** `get_matrix_a`: rebuild from the settled log (given as `settled`, in
        date and time order) when A is unset or the store's count differs from
        the cached one; return A. */
    method GetMatrixA(settled: seq<Draw>, currentCount: nat) returns (m: array2<real>)
      requires Valid()
      modifies this
      ensures Valid() && m == matrixA
      ensures old(matrixA) == null || currentCount != old(lastDrawCount) ==>
        built == settled && fresh(matrixA) && fresh(matrixB)
      ensures old(matrixA) != null && currentCount == old(lastDrawCount) ==> unchanged(this)
    {
      if matrixA == null || currentCount != lastDrawCount {
        BuildMatrices(settled);
      }
      m := matrixA;
    }

    /** `get_matrix_b`: the same check, returning B. */
    method GetMatrixB(settled: seq<Draw>, currentCount: nat) returns (m: array2<real>)
      requires Valid()
      modifies this
      ensures Valid() && m == matrixB
      ensures old(matrixB) == null || currentCount != old(lastDrawCount) ==>
        built == settled && fresh(matrixA) && fresh(matrixB)
      ensures old(matrixB) != null && currentCount == old(lastDrawCount) ==> unchanged(this)
    {
      if matrixB == null || currentCount != lastDrawCount {
        BuildMatrices(settled);
      }
      m := matrixB;
    }

    /** `calculate_matrix_prediction`: fetch A and B through the cache, take
        the latest settled draw, the last of `settled` in date and time order
        (`get_latest_draw_numbers`; none for an empty log), and predict. The
        matrices used are those of the log the cache holds afterwards, and
        every score lies in [0, 1]. */
    method CalculateMatrixPrediction(settled: seq<Draw>, currentCount: nat)
      returns (r: MatrixPrediction, ghost a: array2<real>, ghost b: array2<real>, ghost cluster: seq<int>)
      requires Valid()
      modifies this
      ensures Valid() && IsTransition(a, built) && IsCoOccurrence(b, built)
      ensures settled == [] || settled[|settled| - 1].balls == [] ==> r == MatrixPrediction([], [])
      ensures settled != [] && settled[|settled| - 1].balls != [] ==>
        var latest := settled[|settled| - 1].balls;
        && IsTimeCluster(cluster, TimeScores(a, latest))
        && IsMatrixPrediction(r, TimeScores(a, latest), SpaceScores(b, cluster))
        && forall i :: 0 <= i < |r.details| ==> 0.0 <= r.details[i].score <= 1.0
    {
      var ma := GetMatrixA(settled, currentCount);
      var mb := GetMatrixB(settled, currentCount);
      var latest := if settled != [] then settled[|settled| - 1].balls else [];
      BuiltNonNegative(ma, mb, built);
      r, cluster := PredictFromMatrices(ma, mb, latest);
      a, b := ma, mb;
    }
  }
}
