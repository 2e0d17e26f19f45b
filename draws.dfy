/** The draw log as the prediction code sees it: an ordered sequence of
    draws, each a list of balls (in stored order) plus a bonus letter. */
module Draws {

  /** One row of the log (`balls_list`, `bonus_letter`). */
  datatype Draw = Draw(balls: seq<int>, bonus: string)

  /** The number universe 1..25; balls outside it are ignored by most counters. */
  const MaxNumber: int := 25

  predicate InRange(n: int) {
    1 <= n <= MaxNumber
  }

  function Min(a: int, b: int): int {
    if a < b then a else b
  }

  /** pandas `tail(k)`: the last min(k, |s|) elements, in order. */
  function Tail<T>(s: seq<T>, k: nat): (r: seq<T>)
    ensures |r| == Min(|s|, k)
    ensures r == s[|s| - |r|..]
  {
    if |s| <= k then s else s[|s| - k..]
  }

  /** Occurrences of n in s, counted left to right as the source's loops do. */
  function Count(s: seq<int>, n: int): nat {
    if s == [] then 0 else Count(s[..|s| - 1], n) + (if s[|s| - 1] == n then 1 else 0)
  }

  lemma {:induction false} CountAppend(s: seq<int>, x: int, n: int)
    ensures Count(s + [x], n) == Count(s, n) + (if x == n then 1 else 0)
  {
    assert (s + [x])[..|s + [x]| - 1] == s;
  }

  lemma {:induction false} CountConcat(a: seq<int>, b: seq<int>, n: int)
    ensures Count(a + b, n) == Count(a, n) + Count(b, n)
    decreases |b|
  {
    if b == [] {
      assert a + b == a;
    } else {
      var b' := b[..|b| - 1];
      assert a + b == (a + b') + [b[|b| - 1]];
      CountAppend(a + b', b[|b| - 1], n);
      CountConcat(a, b', n);
      CountAppend(b', b[|b| - 1], n);
      assert b' + [b[|b| - 1]] == b;
    }
  }

  /** A number is counted exactly when it occurs. */
  lemma {:induction false} CountPositive(s: seq<int>, n: int)
    ensures Count(s, n) > 0 <==> n in s
    ensures Count(s, n) <= |s|
  {
    if s != [] {
      CountPositive(s[..|s| - 1], n);
      assert s == s[..|s| - 1] + [s[|s| - 1]];
    }
  }

  /** Occurrences of n over every draw of h. */
  function CountIn(h: seq<Draw>, n: int): nat {
    if h == [] then 0 else CountIn(h[..|h| - 1], n) + Count(h[|h| - 1].balls, n)
  }

  /** Number of balls of h that satisfy p, counted draw by draw. */
  function BallsWhere(h: seq<Draw>, p: int -> bool): nat {
    if h == [] then 0 else BallsWhere(h[..|h| - 1], p) + CountWhere(h[|h| - 1].balls, p)
  }

  function CountWhere(s: seq<int>, p: int -> bool): nat {
    if s == [] then 0 else CountWhere(s[..|s| - 1], p) + (if p(s[|s| - 1]) then 1 else 0)
  }

  /** Total number of balls in h. */
  function BallTotal(h: seq<Draw>): nat {
    if h == [] then 0 else BallTotal(h[..|h| - 1]) + |h[|h| - 1].balls|
  }

  /** Draws elapsed since the most recent draw satisfying `seen`,
      scanning backwards from the latest draw; |h| when no draw satisfies it. */
  function LastSeenGap(h: seq<Draw>, seen: Draw -> bool): nat {
    if h == [] then 0
    else if seen(h[|h| - 1]) then 0
    else 1 + LastSeenGap(h[..|h| - 1], seen)
  }

  /** The gap is bounded by the log length; it is 0 exactly when the latest
      draw qualifies (or the log is empty), |h| exactly when no draw
      qualifies, and otherwise it points at the most recent qualifying draw. */
  lemma {:induction false} LastSeenGapMeaning(h: seq<Draw>, seen: Draw -> bool)
    ensures LastSeenGap(h, seen) <= |h|
    ensures LastSeenGap(h, seen) == 0 <==> (h == [] || seen(h[|h| - 1]))
    ensures LastSeenGap(h, seen) == |h| <==> (forall j :: 0 <= j < |h| ==> !seen(h[j]))
    ensures LastSeenGap(h, seen) < |h| ==> seen(h[|h| - 1 - LastSeenGap(h, seen)])
    ensures forall j :: |h| - LastSeenGap(h, seen) <= j < |h| ==> !seen(h[j])
  {
    if h != [] && !seen(h[|h| - 1]) {
      var p := h[..|h| - 1];
      LastSeenGapMeaning(p, seen);
      assert forall j :: 0 <= j < |p| ==> p[j] == h[j];
    }
  }

  /** What the backward scan finds determines the gap: a qualifying draw
      at distance g with none after it gives g. */
  lemma {:induction false} LastSeenGapAt(h: seq<Draw>, seen: Draw -> bool, g: nat)
    requires g < |h| && seen(h[|h| - 1 - g])
    requires forall j :: |h| - g <= j < |h| ==> !seen(h[j])
    ensures LastSeenGap(h, seen) == g
  {
    if g > 0 {
      var p := h[..|h| - 1];
      assert !seen(h[|h| - 1]);
      assert p[|p| - 1 - (g - 1)] == h[|h| - 1 - g];
      LastSeenGapAt(p, seen, g - 1);
    }
  }

  /** When no draw qualifies the gap is the full length. */
  lemma {:induction false} LastSeenGapNever(h: seq<Draw>, seen: Draw -> bool)
    requires forall j :: 0 <= j < |h| ==> !seen(h[j])
    ensures LastSeenGap(h, seen) == |h|
  {
    if h != [] {
      var p := h[..|h| - 1];
      assert forall j :: 0 <= j < |p| ==> p[j] == h[j];
      LastSeenGapNever(p, seen);
    }
  }

  /** Every ball of h, draw after draw. */
  function Balls(h: seq<Draw>): seq<int> {
    if h == [] then [] else Balls(h[..|h| - 1]) + h[|h| - 1].balls
  }

  /** `set(s)`. */
  function Elements(s: seq<int>): set<int> {
    set x | x in s
  }

  /** A list has at least as many entries as distinct values. */
  lemma {:induction false} ElementsCard(s: seq<int>)
    ensures |Elements(s)| <= |s|
  {
    if s != [] {
      ElementsCard(s[..|s| - 1]);
      assert Elements(s) == Elements(s[..|s| - 1]) + {s[|s| - 1]};
    }
  }

  /** The set {1, ..., n}. */
  function UpTo(n: nat): set<int> {
    if n == 0 then {} else UpTo(n - 1) + {n}
  }

  /** {1, ..., n} holds exactly the numbers 1..n, and n of them. */
  lemma {:induction false} UpToFacts(n: nat)
    ensures forall x :: x in UpTo(n) <==> 1 <= x <= n
    ensures |UpTo(n)| == n
  {
    if n > 0 {
      UpToFacts(n - 1);
    }
  }

  lemma SubsetCard(a: set<int>, b: set<int>)
    requires a <= b
    ensures |a| <= |b|
  {
    assert b == a + (b - a);
  }
}
