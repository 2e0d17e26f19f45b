/** The statistical predictor (engine.py): per-number frequency over the
    last 20 draws and the gap since each number was last drawn, a weighted
    score per number, the top-10 ranking with its confidence value, and the
    dashboard statistics. The draw log is a parameter (the `df_override`
    path); the exponential in the score is a parameter `exp`. */
module Engine {
  import opened Wrappers
  import opened Draws
  import opened Ranking

  /** `{"freq_20": ..., "gap": ...}` for one number. */
  datatype NumberStat = NumberStat(freq20: nat, gap: nat)

  /** `{"count": ..., "gap": ...}` for one bonus letter. */
  datatype LetterStat = LetterStat(count: nat, gap: nat)

  /** The three tunable weights of the score. */
  datatype Params = Params(freqWeight: real, gapWeight: real, decayRate: real)

  const DefaultParams: Params := Params(0.4, 0.5, 0.15)

  /** One entry of `scores` / `details`. */
  datatype Scored = Scored(number: int, score: real, gap: nat, freq: nat)

  /** The prediction payload: `numbers`, `confidence` and `details`. */
  datatype Prediction = Prediction(numbers: seq<int>, confidence: real, details: seq<Scored>)

  /** The bonus letters the letter statistics track. */
  const Letters: seq<string> := ["A", "B", "C", "D", "E"]

  // ---------------------------------------------------------------------
  // Specification of the per-number and per-letter statistics

  /** The draw contains ball n. */
  function HasBall(n: int): Draw -> bool {
    (d: Draw) => n in d.balls
  }

  /** The draw's bonus letter is l. */
  function HasBonus(l: string): Draw -> bool {
    (d: Draw) => d.bonus == l
  }

  /** Number of draws of h satisfying p. */
  function CountDraws(h: seq<Draw>, p: Draw -> bool): nat {
    if h == [] then 0 else CountDraws(h[..|h| - 1], p) + (if p(h[|h| - 1]) then 1 else 0)
  }

  /** What `calculate_stats` reports for number n. */
  function StatOf(h: seq<Draw>, n: int): NumberStat {
    NumberStat(CountIn(Tail(h, 20), n), LastSeenGap(h, HasBall(n)))
  }

  /** What `calculate_letter_stats` reports for letter l. */
  function LetterStatOf(h: seq<Draw>, l: string): LetterStat {
    LetterStat(CountDraws(Tail(h, 50), HasBonus(l)), LastSeenGap(h, HasBonus(l)))
  }

  lemma {:induction false} CountDrawsBound(h: seq<Draw>, p: Draw -> bool)
    ensures CountDraws(h, p) <= |h|
  {
    if h != [] {
      CountDrawsBound(h[..|h| - 1], p);
    }
  }

  /** A number's count within one draw is at most the draw's size, so its
      count over a log is at most the number of balls in that log. */
  lemma {:induction false} CountInBound(h: seq<Draw>, n: int)
    ensures CountIn(h, n) <= BallTotal(h)
  {
    if h != [] {
      CountInBound(h[..|h| - 1], n);
      CountPositive(h[|h| - 1].balls, n);
    }
  }

  /** The frequency of a number counts its appearances in at most the last 20
      draws; its gap is at most the log length, 0 when the latest draw holds
      it and the log length when it never appeared. */
  lemma NumberStatFacts(h: seq<Draw>, n: int)
    ensures StatOf(h, n).freq20 <= BallTotal(Tail(h, 20))
    ensures StatOf(h, n).freq20 > 0 ==> exists j :: |h| - Min(|h|, 20) <= j < |h| && n in h[j].balls
    ensures StatOf(h, n).gap <= |h|
    ensures h != [] && n in h[|h| - 1].balls ==> StatOf(h, n).gap == 0
    ensures (forall j :: 0 <= j < |h| ==> n !in h[j].balls) ==> StatOf(h, n).gap == |h|
  {
    CountInBound(Tail(h, 20), n);
    LastSeenGapMeaning(h, HasBall(n));
    if StatOf(h, n).freq20 > 0 {
      var t := CountInWitness(Tail(h, 20), n);
      assert Tail(h, 20)[t] == h[|h| - Min(|h|, 20) + t];
    }
  }

  /** A positive count is witnessed by a draw that holds the number. */
  lemma {:induction false} CountInWitness(h: seq<Draw>, n: int) returns (t: nat)
    requires CountIn(h, n) > 0
    ensures t < |h| && n in h[t].balls
  {
    if Count(h[|h| - 1].balls, n) > 0 {
      CountPositive(h[|h| - 1].balls, n);
      t := |h| - 1;
    } else {
      t := CountInWitness(h[..|h| - 1], n);
    }
  }

  /** The letter count is over at most 50 draws and the letter gap follows
      the same rule as the number gap. */
  lemma LetterStatFacts(h: seq<Draw>, l: string)
    ensures LetterStatOf(h, l).count <= 50
    ensures LetterStatOf(h, l).count <= |h|
    ensures LetterStatOf(h, l).gap <= |h|
    ensures h != [] && h[|h| - 1].bonus == l ==> LetterStatOf(h, l).gap == 0
    ensures (forall j :: 0 <= j < |h| ==> h[j].bonus != l) ==> LetterStatOf(h, l).gap == |h|
  {
    CountDrawsBound(Tail(h, 50), HasBonus(l));
    LastSeenGapMeaning(h, HasBonus(l));
  }

  // ---------------------------------------------------------------------
  // calculate_stats and calculate_letter_stats

  /** The backward scan shared by both statistics: starting from the latest
      draw, count draws until one satisfies `seen`; the full length when
      none does. */
  method ScanGap(h: seq<Draw>, seen: Draw -> bool) returns (gap: nat)
    ensures gap == LastSeenGap(h, seen)
  {
    gap := 0;
    var found := false;
    var idx := |h| - 1;
    while idx >= 0
      invariant -1 <= idx < |h|
      invariant gap == |h| - 1 - idx
      invariant !found
      invariant forall j :: idx < j < |h| ==> !seen(h[j])
    {
      if seen(h[idx]) {
        found := true;
        break;
      }
      gap := gap + 1;
      idx := idx - 1;
    }
    if found {
      LastSeenGapAt(h, seen, gap);
    } else {
      LastSeenGapNever(h, seen);
      gap := |h|;
    }
  }

  /** A dictionary of counters over the numbers 1..25, filled by one pass
      over the given draws that adds 1 for every ball that is one of its
      keys (the `freq_20` counters over the last 20 draws, and the
      `global_counts` over the whole log). */
  method CountNumbers(last: seq<Draw>) returns (freq: map<int, nat>)
    ensures forall n :: n in freq <==> InRange(n)
    ensures forall n :: InRange(n) ==> freq[n] == CountIn(last, n)
  {
    freq := map n | 1 <= n <= MaxNumber && InRange(n) :: 0;
    for t := 0 to |last|
      invariant forall n :: n in freq <==> InRange(n)
      invariant forall n :: InRange(n) ==> freq[n] == CountIn(last[..t], n)
    {
      var balls := last[t].balls;
      for b := 0 to |balls|
        invariant forall n :: n in freq <==> InRange(n)
        invariant forall n :: InRange(n) ==> freq[n] == CountIn(last[..t], n) + Count(balls[..b], n)
      {
        var ball := balls[b];
        if ball in freq {
          freq := freq[ball := freq[ball] + 1];
        }
        assert balls[..b + 1][..b] == balls[..b];
      }
      assert last[..t + 1][..t] == last[..t];
      assert balls[..|balls|] == balls;
    }
    assert last[..|last|] == last;
  }

  /** `calculate_stats`: a dictionary over the numbers 1..25 holding each
      number's frequency in the last 20 draws (balls outside 1..25 are
      skipped) and its gap. */
  method CalculateStats(h: seq<Draw>) returns (stats: map<int, NumberStat>)
    ensures forall n :: n in stats <==> InRange(n)
    ensures forall n :: InRange(n) ==> stats[n] == StatOf(h, n)
  {
    var freq := CountNumbers(Tail(h, 20));
    stats := map[];
    for n := 1 to MaxNumber + 1
      invariant forall m :: m in stats <==> 1 <= m < n
      invariant forall m :: 1 <= m < n ==> stats[m] == StatOf(h, m)
    {
      var gap := ScanGap(h, HasBall(n));
      stats := stats[n := NumberStat(freq[n], gap)];
    }
  }

  /** The letter counters: one pass over the last 50 draws, adding 1 to the
      bonus letter's counter when it is one of A..E. */
  method CountLetters(last: seq<Draw>) returns (counts: map<string, nat>)
    ensures forall l :: l in counts <==> l in Letters
    ensures forall l :: l in Letters ==> counts[l] == CountDraws(last, HasBonus(l))
  {
    counts := map l | l in Letters :: 0;
    for t := 0 to |last|
      invariant forall l :: l in counts <==> l in Letters
      invariant forall l :: l in Letters ==> counts[l] == CountDraws(last[..t], HasBonus(l))
    {
      var l := last[t].bonus;
      if l in counts {
        counts := counts[l := counts[l] + 1];
      }
      assert last[..t + 1][..t] == last[..t];
    }
    assert last[..|last|] == last;
  }

  /** `calculate_letter_stats`: for each of the letters A..E, the number of
      the last 50 draws carrying it as bonus, and its gap. */
  method CalculateLetterStats(h: seq<Draw>) returns (stats: map<string, LetterStat>)
    ensures forall l :: l in stats <==> l in Letters
    ensures forall l :: l in Letters ==> stats[l] == LetterStatOf(h, l)
  {
    var counts := CountLetters(Tail(h, 50));
    stats := map[];
    for k := 0 to |Letters|
      invariant forall l :: l in stats <==> l in Letters[..k]
      invariant forall l :: l in Letters[..k] ==> stats[l] == LetterStatOf(h, l)
    {
      var l := Letters[k];
      var gap := ScanGap(h, HasBonus(l));
      stats := stats[l := LetterStat(counts[l], gap)];
      assert Letters[..k + 1] == Letters[..k] + [l];
    }
    assert Letters[..|Letters|] == Letters;
  }

  // ---------------------------------------------------------------------
  // calculate_score_for_number and calculate_prediction

  /** `calculate_score_for_number`: freq_w·freq_20 + gap_w·(1 − exp(−decay·gap)),
      with the exponential supplied by the caller. */
  function ScoreNumber(n: int, s: NumberStat, p: Params, exp: real -> real): (r: Scored)
    ensures r.number == n && r.gap == s.gap && r.freq == s.freq20
  {
    var freqTerm := p.freqWeight * (s.freq20 as real);
    var gapTerm := p.gapWeight * (1.0 - exp(0.0 - p.decayRate * (s.gap as real)));
    Scored(n, freqTerm + gapTerm, s.gap, s.freq20)
  }

  /** The scored entry of number n for log h. */
  function ScoredFor(h: seq<Draw>, n: int, p: Params, exp: real -> real): Scored {
    ScoreNumber(n, StatOf(h, n), p, exp)
  }

  /** Sort key and input rank of a scored entry (entries are listed by number). */
  function ScoreKey(s: Scored): real {
    s.score
  }

  function ScoredNumber(s: Scored): int {
    s.number
  }

  /** `sum([x["score"] for x in top])`. */
  function SumScores(top: seq<Scored>): real {
    if top == [] then 0.0 else SumScores(top[..|top| - 1]) + top[|top| - 1].score
  }

  /** `calculate_prediction` on a given log and weights. An empty log gives no
      numbers and confidence 0. Otherwise the 25 numbers are scored in
      ascending order, stably sorted by score (higher first, lower number
      first on ties) and the first 10 kept: they are 10 different numbers of
      1..25, each with its own score, in ranking order, each ranked ahead of
      every number left out. The confidence is the sum of the ten scores
      (ten times their mean), capped at 100. */
  method CalculatePrediction(h: seq<Draw>, p: Params, exp: real -> real) returns (r: Prediction)
    ensures h == [] ==> r == Prediction([], 0.0, [])
    ensures h != [] ==> |r.details| == 10
    ensures r.numbers == Project(r.details, ScoredNumber)
    ensures forall i :: 0 <= i < |r.details| ==>
      InRange(r.details[i].number) && r.details[i] == ScoredFor(h, r.details[i].number, p, exp)
    ensures forall i, j :: 0 <= i < j < |r.numbers| ==> r.numbers[i] != r.numbers[j]
    ensures SortedBy(r.details, ScoreKey, ScoredNumber)
    ensures forall n, i :: InRange(n) && n !in r.numbers && 0 <= i < |r.details| ==>
      Before(ScoreKey, ScoredNumber, r.details[i], ScoredFor(h, n, p, exp))
    ensures r.confidence <= 100.0
    ensures r.confidence == if SumScores(r.details) <= 100.0 then SumScores(r.details) else 100.0
  {
    if h == [] {
      return Prediction([], 0.0, []);
    }
    var scores := ScoreAll(h, p, exp);
    var top := TopK(scores, 10, ScoreKey, ScoredNumber);
    TopOfScores(h, p, exp, scores, top);
    var avg := SumScores(top) / 10.0;
    var confidence := if 100.0 < avg * 10.0 then 100.0 else avg * 10.0;
    r := Prediction(Project(top, ScoredNumber), confidence, top);
  }

  /** The `scores` list: the 25 numbers in ascending order, each with its
      score. */
  method ScoreAll(h: seq<Draw>, p: Params, exp: real -> real) returns (scores: seq<Scored>)
    ensures |scores| == MaxNumber
    ensures forall i :: 0 <= i < MaxNumber ==> scores[i] == ScoredFor(h, i + 1, p, exp)
  {
    var stats := CalculateStats(h);
    scores := [];
    for n := 1 to MaxNumber + 1
      invariant |scores| == n - 1
      invariant forall i :: 0 <= i < n - 1 ==> scores[i] == ScoredFor(h, i + 1, p, exp)
    {
      scores := scores + [ScoreNumber(n, stats[n], p, exp)];
    }
  }

  /** What the ranking of the 25 scored numbers gives: every kept entry is
      the scored entry of its number, and it is ranked ahead of every number
      that was not kept. */
  lemma TopOfScores(h: seq<Draw>, p: Params, exp: real -> real, scores: seq<Scored>, top: seq<Scored>)
    requires |scores| == MaxNumber
    requires forall i :: 0 <= i < MaxNumber ==> scores[i] == ScoredFor(h, i + 1, p, exp)
    requires IsTop(scores, 10, top, ScoreKey, ScoredNumber)
    ensures |top| == 10
    ensures forall i :: 0 <= i < |top| ==>
      InRange(top[i].number) && top[i] == ScoredFor(h, top[i].number, p, exp)
    ensures forall i, j :: 0 <= i < j < |top| ==> top[i].number != top[j].number
    ensures forall n, i :: InRange(n) && n !in Project(top, ScoredNumber) && 0 <= i < |top| ==>
      Before(ScoreKey, ScoredNumber, top[i], ScoredFor(h, n, p, exp))
  {
    forall i | 0 <= i < |top|
      ensures InRange(top[i].number) && top[i] == ScoredFor(h, top[i].number, p, exp)
    {
      assert top[i] in top;
      var k :| 0 <= k < |scores| && scores[k] == top[i];
    }
    forall i, j | 0 <= i < j < |top|
      ensures top[i].number != top[j].number
    {
      assert ScoredNumber(top[i]) != ScoredNumber(top[j]);
    }
    forall n, i | InRange(n) && n !in Project(top, ScoredNumber) && 0 <= i < |top|
      ensures Before(ScoreKey, ScoredNumber, top[i], ScoredFor(h, n, p, exp))
    {
      assert scores[n - 1] in scores;
    }
  }

  // ---------------------------------------------------------------------
  // get_comprehensive_stats: specification

  /** One `{"number": n, "count": c}` (or `{"number": n, "gap": g}`) entry. */
  datatype Tally = Tally(number: int, value: nat)

  /** One `{"name": ..., "value": ...}` chart entry. */
  datatype NamedValue = NamedValue(name: string, value: nat)

  /** The dashboard payload. */
  datatype Dashboard = Dashboard(
    hot: seq<Tally>,
    cold: seq<Tally>,
    overdue: seq<Tally>,
    frequencyAll: seq<Tally>,
    parity: seq<NamedValue>,
    decades: seq<NamedValue>,
    totalDraws: nat)

  /** Sort keys: the value itself (`reverse=True`), or its negation for the
      ascending sort of the cold list; and the number as input rank. */
  function ValueKey(e: Tally): real {
    e.value as real
  }

  function LowValueKey(e: Tally): real {
    0.0 - e.value as real
  }

  function TallyNumber(e: Tally): int {
    e.number
  }

  predicate Distinct(s: seq<int>) {
    forall i, j :: 0 <= i < j < |s| ==> s[i] != s[j]
  }

  /** The keys of a dictionary filled from s, in insertion order: the
      distinct values of s by first appearance. */
  function FirstSeen(s: seq<int>): seq<int> {
    if s == [] then []
    else
      var p := FirstSeen(s[..|s| - 1]);
      if s[|s| - 1] in p then p else p + [s[|s| - 1]]
  }

  lemma {:induction false} FirstSeenFacts(s: seq<int>)
    ensures forall x :: x in FirstSeen(s) <==> x in s
    ensures Distinct(FirstSeen(s))
  {
    if s != [] {
      FirstSeenFacts(s[..|s| - 1]);
      assert s == s[..|s| - 1] + [s[|s| - 1]];
    }
  }

  /** Position of the first x in s; |s| when x is absent. */
  function IndexIn(s: seq<int>, x: int): (k: nat)
    ensures k <= |s|
    ensures k < |s| ==> s[k] == x
    ensures forall j :: 0 <= j < k ==> s[j] != x
  {
    if s == [] then 0 else if s[0] == x then 0 else 1 + IndexIn(s[1..], x)
  }

  /** Input rank of a dictionary item: the position of its key. */
  function PositionIn(keys: seq<int>): Tally -> int {
    (e: Tally) => IndexIn(keys, e.number)
  }

  /** The numbers n..25 that are not in keys, ascending: what the zero-fill
      loop appends to the counter dictionary. */
  function MissingFrom(keys: seq<int>, n: int): seq<int>
    decreases MaxNumber + 1 - n
  {
    if n > MaxNumber then [] else (if n in keys then [] else [n]) + MissingFrom(keys, n + 1)
  }

  lemma MissingFromFacts(keys: seq<int>, n: int)
    ensures forall x :: x in MissingFrom(keys, n) <==> n <= x <= MaxNumber && x !in keys
    ensures Distinct(MissingFrom(keys, n))
  {
    MissingFromMembers(keys, n);
    MissingFromDistinct(keys, n);
  }

  lemma {:induction false} MissingFromMembers(keys: seq<int>, n: int)
    ensures forall x :: x in MissingFrom(keys, n) <==> n <= x <= MaxNumber && x !in keys
    decreases MaxNumber + 1 - n
  {
    if n <= MaxNumber {
      var rest := MissingFrom(keys, n + 1);
      MissingFromMembers(keys, n + 1);
      assert MissingFrom(keys, n) == (if n in keys then [] else [n]) + rest;
      forall x
        ensures x in MissingFrom(keys, n) <==> n <= x <= MaxNumber && x !in keys
      {
        assert x in MissingFrom(keys, n) <==> (x == n && n !in keys) || x in rest;
      }
    }
  }

  lemma {:induction false} MissingFromDistinct(keys: seq<int>, n: int)
    ensures Distinct(MissingFrom(keys, n))
    decreases MaxNumber + 1 - n
  {
    if n <= MaxNumber {
      MissingFromDistinct(keys, n + 1);
      if n in keys {
        MissingSkip(keys, n);
      } else {
        MissingFromMembers(keys, n + 1);
        DistinctCons(n, MissingFrom(keys, n + 1));
      }
    }
  }

  lemma DistinctCons(x: int, s: seq<int>)
    requires x !in s && Distinct(s)
    ensures Distinct([x] + s)
  {
    forall i, j | 0 <= i < j < |[x] + s|
      ensures ([x] + s)[i] != ([x] + s)[j]
    {
      assert ([x] + s)[j] == s[j - 1];
      if i > 0 {
        assert ([x] + s)[i] == s[i - 1];
      }
    }
  }

  /** Keys of the counter dictionary after the zero-fill. */
  function FilledKeys(keys: seq<int>): seq<int> {
    keys + MissingFrom(keys, 1)
  }

  /** After the zero-fill the keys are still distinct, hold every number
      1..25, and are therefore at least 25. */
  lemma FilledKeysFacts(keys: seq<int>)
    requires Distinct(keys)
    ensures forall x :: x in FilledKeys(keys) <==> x in keys || InRange(x)
    ensures Distinct(FilledKeys(keys))
    ensures |FilledKeys(keys)| >= MaxNumber
  {
    var f := FilledKeys(keys);
    var m := MissingFrom(keys, 1);
    MissingFromFacts(keys, 1);
    forall i, j | 0 <= i < j < |f|
      ensures f[i] != f[j]
    {
      if j < |keys| {
        assert f[i] == keys[i] && f[j] == keys[j];
      } else if |keys| <= i {
        assert f[i] == m[i - |keys|] && f[j] == m[j - |keys|];
      } else {
        assert f[j] == m[j - |keys|];
        assert f[j] in m;
      }
    }
    FilledKeysCard(keys);
  }

  lemma FilledKeysCard(keys: seq<int>)
    ensures |FilledKeys(keys)| >= MaxNumber
  {
    var f := FilledKeys(keys);
    MissingFromFacts(keys, 1);
    UpToFacts(MaxNumber);
    forall x | x in UpTo(MaxNumber)
      ensures x in Elements(f)
    {
      if x !in keys {
        assert x in MissingFrom(keys, 1);
      }
    }
    SubsetCard(UpTo(MaxNumber), Elements(f));
    ElementsCard(f);
  }

  /** The dictionary items for the given keys, each with its count in flat. */
  function CountItems(keys: seq<int>, flat: seq<int>): (r: seq<Tally>)
    ensures |r| == |keys|
    ensures forall i :: 0 <= i < |keys| ==> r[i] == Tally(keys[i], Count(flat, keys[i]))
  {
    seq(|keys|, i requires 0 <= i < |keys| => Tally(keys[i], Count(flat, keys[i])))
  }

  /** Items listed in key order have increasing input rank. */
  lemma ItemsRankIncreasing(keys: seq<int>, items: seq<Tally>)
    requires Distinct(keys)
    requires |items| == |keys| && forall i :: 0 <= i < |keys| ==> items[i].number == keys[i]
    ensures RankIncreasing(items, PositionIn(keys))
  {
    forall i | 0 <= i < |keys|
      ensures IndexIn(keys, keys[i]) == i
    {
    }
  }

  /** `hot_numbers`: among the balls of the last 50 draws, the (at most) 5
      highest counts, ties in order of first appearance (dictionary order). */
  ghost predicate IsHotList(h: seq<Draw>, hot: seq<Tally>) {
    var flat := Balls(Tail(h, 50));
    var keys := FirstSeen(flat);
    && |hot| == Min(|keys|, 5)
    && (forall i :: 0 <= i < |hot| ==> hot[i].number in flat && hot[i].value == Count(flat, hot[i].number))
    && (forall i, j :: 0 <= i < j < |hot| ==> hot[i].number != hot[j].number)
    && SortedBy(hot, ValueKey, PositionIn(keys))
    && (forall n, i :: n in flat && n !in Project(hot, TallyNumber) && 0 <= i < |hot| ==>
          Before(ValueKey, PositionIn(keys), hot[i], Tally(n, Count(flat, n))))
  }

  /** `cold_numbers`: after zero-filling 1..25, the 5 lowest counts, ties in
      dictionary order (balls seen first, then the missing numbers
      ascending). */
  ghost predicate IsColdList(h: seq<Draw>, cold: seq<Tally>) {
    var flat := Balls(Tail(h, 50));
    var keys := FilledKeys(FirstSeen(flat));
    && |cold| == 5
    && (forall i :: 0 <= i < |cold| ==>
          (cold[i].number in flat || InRange(cold[i].number)) && cold[i].value == Count(flat, cold[i].number))
    && (forall i, j :: 0 <= i < j < |cold| ==> cold[i].number != cold[j].number)
    && SortedBy(cold, LowValueKey, PositionIn(keys))
    && (forall n, i :: (n in flat || InRange(n)) && n !in Project(cold, TallyNumber) && 0 <= i < |cold| ==>
          Before(LowValueKey, PositionIn(keys), cold[i], Tally(n, Count(flat, n))))
  }

  /** `overdue_numbers`: the 5 numbers of 1..25 with the largest gaps, lower
      number first on ties. */
  ghost predicate IsOverdueList(h: seq<Draw>, overdue: seq<Tally>) {
    && |overdue| == 5
    && (forall i :: 0 <= i < |overdue| ==>
          InRange(overdue[i].number) && overdue[i].value == LastSeenGap(h, HasBall(overdue[i].number)))
    && (forall i, j :: 0 <= i < j < |overdue| ==> overdue[i].number != overdue[j].number)
    && SortedBy(overdue, ValueKey, TallyNumber)
    && (forall n, i :: InRange(n) && n !in Project(overdue, TallyNumber) && 0 <= i < |overdue| ==>
          Before(ValueKey, TallyNumber, overdue[i], Tally(n, LastSeenGap(h, HasBall(n)))))
  }

  /** `frequency_all`: every number 1..25 once, ascending, with its count
      over the whole log. */
  ghost predicate IsFrequencyTable(h: seq<Draw>, t: seq<Tally>) {
    |t| == MaxNumber && forall i :: 0 <= i < MaxNumber ==> t[i] == Tally(i + 1, CountIn(h, i + 1))
  }

  predicate IsEven(n: int) {
    n % 2 == 0
  }

  predicate IsOdd(n: int) {
    n % 2 != 0
  }

  predicate InUnits(n: int) {
    1 <= n <= 9
  }

  predicate InTens(n: int) {
    10 <= n <= 19
  }

  predicate InTwenties(n: int) {
    20 <= n <= 25
  }

  function SumValues(t: seq<Tally>): nat {
    if t == [] then 0 else SumValues(t[..|t| - 1]) + t[|t| - 1].value
  }

  // ---------------------------------------------------------------------
  // get_comprehensive_stats: what the counters add up to

  /** Σ_{n=1..k} Count(s, n). */
  function SumCount(s: seq<int>, k: nat): nat {
    if k == 0 then 0 else SumCount(s, k - 1) + Count(s, k)
  }

  /** Σ_{n=1..k} CountIn(h, n). */
  function SumCountIn(h: seq<Draw>, k: nat): nat {
    if k == 0 then 0 else SumCountIn(h, k - 1) + CountIn(h, k)
  }

  lemma {:induction false} SumCountEmpty(s: seq<int>, k: nat)
    requires s == []
    ensures SumCount(s, k) == 0
  {
    if k > 0 {
      SumCountEmpty(s, k - 1);
    }
  }

  lemma {:induction false} SumCountInEmpty(h: seq<Draw>, k: nat)
    requires h == []
    ensures SumCountIn(h, k) == 0
  {
    if k > 0 {
      SumCountInEmpty(h, k - 1);
    }
  }

  lemma {:induction false} SumCountAppend(s: seq<int>, x: int, k: nat)
    ensures SumCount(s + [x], k) == SumCount(s, k) + (if 1 <= x <= k then 1 else 0)
  {
    if k > 0 {
      SumCountAppend(s, x, k - 1);
      CountAppend(s, x, k);
    }
  }

  /** Counting each number 1..25 separately counts every in-range ball once. */
  lemma {:induction false} SumCountAll(s: seq<int>)
    ensures SumCount(s, MaxNumber) == CountWhere(s, InRange)
  {
    if s == [] {
      SumCountEmpty(s, MaxNumber);
    } else {
      var p := s[..|s| - 1];
      SumCountAll(p);
      assert s == p + [s[|s| - 1]];
      SumCountAppend(p, s[|s| - 1], MaxNumber);
      assert CountWhere(s, InRange) == CountWhere(p, InRange) + (if InRange(s[|s| - 1]) then 1 else 0);
    }
  }

  lemma {:induction false} SumCountInStep(h: seq<Draw>, k: nat)
    requires h != []
    ensures SumCountIn(h, k) == SumCountIn(h[..|h| - 1], k) + SumCount(h[|h| - 1].balls, k)
  {
    if k > 0 {
      SumCountInStep(h, k - 1);
    }
  }

  lemma {:induction false} SumCountInAll(h: seq<Draw>)
    ensures SumCountIn(h, MaxNumber) == BallsWhere(h, InRange)
  {
    if h == [] {
      SumCountInEmpty(h, MaxNumber);
    } else {
      SumCountInAll(h[..|h| - 1]);
      SumCountInStep(h, MaxNumber);
      SumCountAll(h[|h| - 1].balls);
      assert BallsWhere(h, InRange) == BallsWhere(h[..|h| - 1], InRange) + CountWhere(h[|h| - 1].balls, InRange);
    }
  }

  /** The counts of `frequency_all` add up to the number of balls in 1..25
      over the whole log. */
  lemma FrequencyTableSum(h: seq<Draw>, t: seq<Tally>)
    requires IsFrequencyTable(h, t)
    ensures SumValues(t) == BallsWhere(h, InRange)
  {
    forall k | 0 <= k <= MaxNumber
      ensures SumValues(t[..k]) == SumCountIn(h, k)
    {
      FrequencyPrefixSum(h, t, k);
    }
    assert t[..MaxNumber] == t;
    SumCountInAll(h);
  }

  lemma {:induction false} FrequencyPrefixSum(h: seq<Draw>, t: seq<Tally>, k: nat)
    requires IsFrequencyTable(h, t) && k <= MaxNumber
    ensures SumValues(t[..k]) == SumCountIn(h, k)
  {
    if k > 0 {
      FrequencyPrefixSum(h, t, k - 1);
      assert t[..k][..k - 1] == t[..k - 1];
    }
  }

  lemma {:induction false} ParitySplit(s: seq<int>)
    ensures CountWhere(s, IsEven) + CountWhere(s, IsOdd) == |s|
  {
    if s != [] {
      ParitySplit(s[..|s| - 1]);
    }
  }

  /** Every ball is either even or odd, so the two parity counts add up to
      the number of balls in the log. */
  lemma {:induction false} ParityTotal(h: seq<Draw>)
    ensures BallsWhere(h, IsEven) + BallsWhere(h, IsOdd) == BallTotal(h)
  {
    if h != [] {
      ParityTotal(h[..|h| - 1]);
      ParitySplit(h[|h| - 1].balls);
    }
  }

  lemma {:induction false} DecadeSplit(s: seq<int>)
    ensures CountWhere(s, InUnits) + CountWhere(s, InTens) + CountWhere(s, InTwenties) == CountWhere(s, InRange)
    ensures CountWhere(s, InRange) <= |s|
  {
    if s != [] {
      DecadeSplit(s[..|s| - 1]);
    }
  }

  /** The three decade counts together are the balls inside 1..25, which are
      at most all balls (even + odd). */
  lemma {:induction false} DecadeTotal(h: seq<Draw>)
    ensures BallsWhere(h, InUnits) + BallsWhere(h, InTens) + BallsWhere(h, InTwenties) == BallsWhere(h, InRange)
    ensures BallsWhere(h, InRange) <= BallsWhere(h, IsEven) + BallsWhere(h, IsOdd)
  {
    if h != [] {
      DecadeTotal(h[..|h| - 1]);
      DecadeSplit(h[|h| - 1].balls);
      ParitySplit(h[|h| - 1].balls);
    }
  }

  // ---------------------------------------------------------------------
  // get_comprehensive_stats: the counting passes

  /** `number_counts_50`: one pass over the balls of the given draws,
      `counts[ball] = counts.get(ball, 0) + 1`. The dictionary's insertion
      order is kept in `keys`. */
  method CountByBall(last: seq<Draw>) returns (keys: seq<int>, counts: map<int, nat>)
    ensures keys == FirstSeen(Balls(last))
    ensures forall x :: x in counts <==> x in Balls(last)
    ensures forall x :: x in counts ==> counts[x] == Count(Balls(last), x)
  {
    keys := [];
    counts := map[];
    ghost var seen: seq<int> := [];
    for t := 0 to |last|
      invariant seen == Balls(last[..t])
      invariant keys == FirstSeen(seen)
      invariant forall x :: x in counts <==> x in seen
      invariant forall x :: x in counts ==> counts[x] == Count(seen, x)
    {
      var balls := last[t].balls;
      assert Balls(last[..t + 1]) == Balls(last[..t]) + balls by {
        assert last[..t + 1][..t] == last[..t];
      }
      for b := 0 to |balls|
        invariant seen == Balls(last[..t]) + balls[..b]
        invariant keys == FirstSeen(seen)
        invariant forall x :: x in counts <==> x in seen
        invariant forall x :: x in counts ==> counts[x] == Count(seen, x)
      {
        var ball := balls[b];
        FirstSeenFacts(seen);
        if ball !in counts {
          keys := keys + [ball];
        }
        counts := counts[ball := (if ball in counts then counts[ball] else 0) + 1];
        forall x
          ensures Count(seen + [ball], x) == Count(seen, x) + (if ball == x then 1 else 0)
        {
          CountAppend(seen, ball, x);
        }
        CountPositive(seen, ball);
        assert (seen + [ball])[..|seen|] == seen;
        seen := seen + [ball];
        assert balls[..b + 1] == balls[..b] + [ball];
      }
      assert balls[..|balls|] == balls;
    }
    assert last[..|last|] == last;
  }

  /** The zero-fill: every number 1..25 that is not yet a key is added with
      count 0, in ascending order. */
  method FillMissing(keys: seq<int>, counts: map<int, nat>) returns (keys': seq<int>, counts': map<int, nat>)
    requires forall x :: x in keys <==> x in counts
    ensures keys' == FilledKeys(keys)
    ensures forall x :: x in counts' <==> x in keys'
    ensures forall x :: x in counts' ==> counts'[x] == if x in counts then counts[x] else 0
  {
    keys' := keys;
    counts' := counts;
    for n := 1 to MaxNumber + 1
      invariant keys' + MissingFrom(keys, n) == FilledKeys(keys)
      invariant counts' == ZeroFilled(counts, n)
    {
      ZeroFilledAbove(counts, n, n);
      if n in counts' {
        MissingSkip(keys, n);
      } else {
        MissingTake(keys, keys', n);
        counts' := counts'[n := 0];
        keys' := keys' + [n];
      }
    }
    FillDone(keys, counts, keys', counts');
  }

  /** The counter once the zero-fill has looked at the numbers below n. */
  function ZeroFilled(counts: map<int, nat>, n: int): map<int, nat>
    decreases n
  {
    if n <= 1 then counts
    else
      var m := ZeroFilled(counts, n - 1);
      if n - 1 in m then m else m[n - 1 := 0]
  }

  /** The zero-fill adds exactly the numbers below n that were not counted,
      each with a 0, and keeps every existing count. */
  lemma {:induction false} ZeroFilledFacts(counts: map<int, nat>, n: int)
    ensures forall x :: x in ZeroFilled(counts, n) <==> x in counts || 1 <= x < n
    ensures forall x :: x in ZeroFilled(counts, n) ==> ZeroFilled(counts, n)[x] == if x in counts then counts[x] else 0
    decreases n
  {
    if n > 1 {
      ZeroFilledFacts(counts, n - 1);
    }
  }

  /** Numbers from n on are untouched so far. */
  lemma {:induction false} ZeroFilledAbove(counts: map<int, nat>, n: int, x: int)
    requires x >= n
    ensures x in ZeroFilled(counts, n) <==> x in counts
    decreases n
  {
    if n > 1 {
      ZeroFilledAbove(counts, n - 1, x);
    }
  }

  lemma MissingSkip(keys: seq<int>, n: int)
    requires n in keys
    ensures MissingFrom(keys, n) == MissingFrom(keys, n + 1)
  {
    if n <= MaxNumber {
      assert MissingFrom(keys, n) == [] + MissingFrom(keys, n + 1);
    }
  }

  lemma MissingTake(keys: seq<int>, keys': seq<int>, n: int)
    requires n <= MaxNumber && n !in keys
    ensures keys' + MissingFrom(keys, n) == (keys' + [n]) + MissingFrom(keys, n + 1)
  {
    assert MissingFrom(keys, n) == [n] + MissingFrom(keys, n + 1);
  }

  /** After the last number the keys are the filled keys and the counter
      holds exactly them. */
  lemma FillDone(keys: seq<int>, counts: map<int, nat>, keys': seq<int>, counts': map<int, nat>)
    requires forall x :: x in keys <==> x in counts
    requires keys' + MissingFrom(keys, MaxNumber + 1) == FilledKeys(keys)
    requires counts' == ZeroFilled(counts, MaxNumber + 1)
    ensures keys' == FilledKeys(keys)
    ensures forall x :: x in counts' <==> x in keys'
    ensures forall x :: x in counts' ==> counts'[x] == if x in counts then counts[x] else 0
  {
    assert keys' + MissingFrom(keys, MaxNumber + 1) == keys' + [];
    assert keys' + [] == keys';
    ZeroFilledFacts(counts, MaxNumber + 1);
    MissingFromMembers(keys, 1);
  }

  /** After the zero-fill, every key's counter is its count in flat. */
  lemma FilledItems(flat: seq<int>, counts: map<int, nat>, keys2: seq<int>, counts2: map<int, nat>)
    requires forall x :: x in counts <==> x in flat
    requires forall x :: x in counts ==> counts[x] == Count(flat, x)
    requires forall x :: x in counts2 <==> x in keys2
    requires forall x :: x in counts2 ==> counts2[x] == if x in counts then counts[x] else 0
    ensures forall i :: 0 <= i < |keys2| ==> keys2[i] in counts2
    ensures DictItems(keys2, counts2) == CountItems(keys2, flat)
  {
    assert forall i :: 0 <= i < |keys2| ==> keys2[i] in keys2;
    forall i | 0 <= i < |keys2|
      ensures keys2[i] in counts2 && counts2[keys2[i]] == Count(flat, keys2[i])
    {
      CountPositive(flat, keys2[i]);
    }
  }

  /** `dict.items()`, in insertion order. */
  function DictItems(keys: seq<int>, counts: map<int, nat>): (r: seq<Tally>)
    requires forall i :: 0 <= i < |keys| ==> keys[i] in counts
    ensures |r| == |keys|
    ensures forall i :: 0 <= i < |keys| ==> r[i] == Tally(keys[i], counts[keys[i]])
  {
    seq(|keys|, i requires 0 <= i < |keys| => Tally(keys[i], counts[keys[i]]))
  }

  /** What ranking the counter items gives: each kept entry is a key with its
      count, the kept numbers differ, and each is ranked ahead of every key
      that was not kept. */
  lemma CountTopFacts(keys: seq<int>, flat: seq<int>, k: nat, top: seq<Tally>, key: Tally -> real)
    requires IsTop(CountItems(keys, flat), k, top, key, PositionIn(keys))
    ensures forall i :: 0 <= i < |top| ==> top[i].number in keys && top[i].value == Count(flat, top[i].number)
    ensures forall i, j :: 0 <= i < j < |top| ==> top[i].number != top[j].number
    ensures forall n, i :: n in keys && n !in Project(top, TallyNumber) && 0 <= i < |top| ==>
      Before(key, PositionIn(keys), top[i], Tally(n, Count(flat, n)))
  {
    var items := CountItems(keys, flat);
    forall i | 0 <= i < |top|
      ensures top[i].number in keys && top[i].value == Count(flat, top[i].number)
    {
      assert top[i] in top;
      var m :| 0 <= m < |items| && items[m] == top[i];
    }
    forall i, j | 0 <= i < j < |top|
      ensures top[i].number != top[j].number
    {
      assert PositionIn(keys)(top[i]) != PositionIn(keys)(top[j]);
    }
    forall n, i | n in keys && n !in Project(top, TallyNumber) && 0 <= i < |top|
      ensures Before(key, PositionIn(keys), top[i], Tally(n, Count(flat, n)))
    {
      var m :| 0 <= m < |keys| && keys[m] == n;
      assert items[m] == Tally(n, Count(flat, n));
      forall j | 0 <= j < |top|
        ensures top[j] != items[m]
      {
        assert Project(top, TallyNumber)[j] == top[j].number;
      }
      assert items[m] in items && items[m] !in top;
    }
  }

  /** The hot list is the top 5 of the counter items in dictionary order. */
  lemma HotListFacts(h: seq<Draw>, keys: seq<int>, hot: seq<Tally>)
    requires keys == FirstSeen(Balls(Tail(h, 50)))
    requires IsTop(CountItems(keys, Balls(Tail(h, 50))), 5, hot, ValueKey, PositionIn(keys))
    ensures IsHotList(h, hot)
  {
    var flat := Balls(Tail(h, 50));
    FirstSeenFacts(flat);
    CountTopFacts(keys, flat, 5, hot, ValueKey);
  }

  /** The cold list is the bottom 5 of the zero-filled counter items. */
  lemma ColdListFacts(h: seq<Draw>, keys: seq<int>, cold: seq<Tally>)
    requires keys == FilledKeys(FirstSeen(Balls(Tail(h, 50))))
    requires IsTop(CountItems(keys, Balls(Tail(h, 50))), 5, cold, LowValueKey, PositionIn(keys))
    ensures IsColdList(h, cold)
  {
    var flat := Balls(Tail(h, 50));
    FirstSeenFacts(flat);
    FilledKeysFacts(FirstSeen(flat));
    CountTopFacts(keys, flat, 5, cold, LowValueKey);
  }

  /** `hot_numbers` and `cold_numbers` from the last 50 draws: the counters
      are ranked once as counted, and once more after the zero-fill. */
  method HotAndCold(h: seq<Draw>) returns (hot: seq<Tally>, cold: seq<Tally>)
    ensures IsHotList(h, hot)
    ensures IsColdList(h, cold)
  {
    var keys, counts := CountByBall(Tail(h, 50));
    hot := RankHot(h, keys, counts);
    cold := RankCold(h, keys, counts);
  }

  /** `sorted(number_counts_50.items(), key=count, reverse=True)[:5]`. */
  method RankHot(ghost h: seq<Draw>, keys: seq<int>, counts: map<int, nat>) returns (hot: seq<Tally>)
    requires keys == FirstSeen(Balls(Tail(h, 50)))
    requires forall x :: x in counts <==> x in Balls(Tail(h, 50))
    requires forall x :: x in counts ==> counts[x] == Count(Balls(Tail(h, 50)), x)
    ensures IsHotList(h, hot)
  {
    ghost var flat := Balls(Tail(h, 50));
    FirstSeenFacts(flat);
    assert forall i :: 0 <= i < |keys| ==> keys[i] in keys;
    var items := DictItems(keys, counts);
    assert items == CountItems(keys, flat);
    ItemsRankIncreasing(keys, items);
    hot := TopK(items, 5, ValueKey, PositionIn(keys));
    HotListFacts(h, keys, hot);
  }

  /** The zero-fill of 1..25, then
      `sorted(number_counts_50.items(), key=count)[:5]`. */
  method RankCold(ghost h: seq<Draw>, keys: seq<int>, counts: map<int, nat>) returns (cold: seq<Tally>)
    requires keys == FirstSeen(Balls(Tail(h, 50)))
    requires forall x :: x in counts <==> x in Balls(Tail(h, 50))
    requires forall x :: x in counts ==> counts[x] == Count(Balls(Tail(h, 50)), x)
    ensures IsColdList(h, cold)
  {
    FirstSeenFacts(Balls(Tail(h, 50)));
    var keys2, counts2 := FillMissing(keys, counts);
    FilledCounter(Balls(Tail(h, 50)), keys, counts, keys2, counts2);
    var items := DictItems(keys2, counts2);
    cold := TopK(items, 5, LowValueKey, PositionIn(keys2));
    ColdListFacts(h, keys2, cold);
  }

  /** After the zero-fill, the counter items are the counts of the filled
      keys, listed in dictionary order. */
  lemma FilledCounter(flat: seq<int>, keys: seq<int>, counts: map<int, nat>, keys2: seq<int>, counts2: map<int, nat>)
    requires keys == FirstSeen(flat)
    requires forall x :: x in counts <==> x in flat
    requires forall x :: x in counts ==> counts[x] == Count(flat, x)
    requires keys2 == FilledKeys(keys)
    requires forall x :: x in counts2 <==> x in keys2
    requires forall x :: x in counts2 ==> counts2[x] == if x in counts then counts[x] else 0
    ensures forall i :: 0 <= i < |keys2| ==> keys2[i] in counts2
    ensures DictItems(keys2, counts2) == CountItems(keys2, flat)
    ensures RankIncreasing(DictItems(keys2, counts2), PositionIn(keys2))
  {
    FirstSeenFacts(flat);
    FilledItems(flat, counts, keys2, counts2);
    FilledKeysFacts(keys);
    ItemsRankIncreasing(keys2, DictItems(keys2, counts2));
  }

  /** The overdue list is the top 5 of the number/gap items. */
  lemma OverdueListFacts(h: seq<Draw>, items: seq<Tally>, overdue: seq<Tally>)
    requires |items| == MaxNumber
    requires forall i :: 0 <= i < MaxNumber ==> items[i] == Tally(i + 1, LastSeenGap(h, HasBall(i + 1)))
    requires IsTop(items, 5, overdue, ValueKey, TallyNumber)
    ensures IsOverdueList(h, overdue)
  {
    forall i | 0 <= i < |overdue|
      ensures InRange(overdue[i].number) && overdue[i].value == LastSeenGap(h, HasBall(overdue[i].number))
    {
      assert overdue[i] in overdue;
      var k :| 0 <= k < |items| && items[k] == overdue[i];
    }
    forall i, j | 0 <= i < j < |overdue|
      ensures overdue[i].number != overdue[j].number
    {
      assert TallyNumber(overdue[i]) != TallyNumber(overdue[j]);
    }
    forall n, i | InRange(n) && n !in Project(overdue, TallyNumber) && 0 <= i < |overdue|
      ensures Before(ValueKey, TallyNumber, overdue[i], Tally(n, LastSeenGap(h, HasBall(n))))
    {
      assert items[n - 1] in items;
      forall j | 0 <= j < |overdue|
        ensures overdue[j] != items[n - 1]
      {
        assert Project(overdue, TallyNumber)[j] == overdue[j].number;
      }
    }
  }

  /** `overdue_numbers`: the number/gap items of `calculate_stats`, ranked by
      gap, first 5. */
  method Overdue(h: seq<Draw>) returns (overdue: seq<Tally>)
    ensures IsOverdueList(h, overdue)
  {
    var stats := CalculateStats(h);
    var items: seq<Tally> := [];
    for n := 1 to MaxNumber + 1
      invariant |items| == n - 1
      invariant forall i :: 0 <= i < n - 1 ==> items[i] == Tally(i + 1, LastSeenGap(h, HasBall(i + 1)))
    {
      items := items + [Tally(n, stats[n].gap)];
    }
    overdue := TopK(items, 5, ValueKey, TallyNumber);
    OverdueListFacts(h, items, overdue);
  }

  /** `frequency_all`: the whole-log counters of 1..25, listed by number. */
  method FrequencyAll(h: seq<Draw>) returns (table: seq<Tally>)
    ensures IsFrequencyTable(h, table)
  {
    var globalCounts := CountNumbers(h);
    table := [];
    for n := 1 to MaxNumber + 1
      invariant |table| == n - 1
      invariant forall i :: 0 <= i < n - 1 ==> table[i] == Tally(i + 1, CountIn(h, i + 1))
    {
      table := table + [Tally(n, globalCounts[n])];
    }
  }

  /** The parity pass: every ball of the log is even or odd. */
  method CountParity(h: seq<Draw>) returns (even: nat, odd: nat)
    ensures even == BallsWhere(h, IsEven)
    ensures odd == BallsWhere(h, IsOdd)
  {
    even, odd := 0, 0;
    for t := 0 to |h|
      invariant even == BallsWhere(h[..t], IsEven)
      invariant odd == BallsWhere(h[..t], IsOdd)
    {
      var balls := h[t].balls;
      for b := 0 to |balls|
        invariant even == BallsWhere(h[..t], IsEven) + CountWhere(balls[..b], IsEven)
        invariant odd == BallsWhere(h[..t], IsOdd) + CountWhere(balls[..b], IsOdd)
      {
        if balls[b] % 2 == 0 {
          even := even + 1;
        } else {
          odd := odd + 1;
        }
        assert balls[..b + 1][..b] == balls[..b];
      }
      assert h[..t + 1][..t] == h[..t];
      assert balls[..|balls|] == balls;
    }
    assert h[..|h|] == h;
  }

  /** The decade pass: balls in 1-9, 10-19 and 20-25; other balls are not
      counted. */
  method CountDecades(h: seq<Draw>) returns (units: nat, tens: nat, twenties: nat)
    ensures units == BallsWhere(h, InUnits)
    ensures tens == BallsWhere(h, InTens)
    ensures twenties == BallsWhere(h, InTwenties)
  {
    units, tens, twenties := 0, 0, 0;
    for t := 0 to |h|
      invariant units == BallsWhere(h[..t], InUnits)
      invariant tens == BallsWhere(h[..t], InTens)
      invariant twenties == BallsWhere(h[..t], InTwenties)
    {
      var balls := h[t].balls;
      for b := 0 to |balls|
        invariant units == BallsWhere(h[..t], InUnits) + CountWhere(balls[..b], InUnits)
        invariant tens == BallsWhere(h[..t], InTens) + CountWhere(balls[..b], InTens)
        invariant twenties == BallsWhere(h[..t], InTwenties) + CountWhere(balls[..b], InTwenties)
      {
        var ball := balls[b];
        if 1 <= ball <= 9 {
          units := units + 1;
        } else if 10 <= ball <= 19 {
          tens := tens + 1;
        } else if 20 <= ball <= 25 {
          twenties := twenties + 1;
        }
        assert balls[..b + 1][..b] == balls[..b];
      }
      assert h[..t + 1][..t] == h[..t];
      assert balls[..|balls|] == balls;
    }
    assert h[..|h|] == h;
  }

  /** `get_comprehensive_stats`: nothing for an empty log; otherwise the hot,
      cold and overdue lists, the frequency table, the parity and decade
      charts and the number of draws. */
  method ComprehensiveStats(h: seq<Draw>) returns (r: Option<Dashboard>)
    ensures r.None? <==> h == []
    ensures r.Some? ==> IsHotList(h, r.value.hot) && IsColdList(h, r.value.cold)
    ensures r.Some? ==> IsOverdueList(h, r.value.overdue)
    ensures r.Some? ==> IsFrequencyTable(h, r.value.frequencyAll)
    ensures r.Some? ==> (r.value.parity ==
      [NamedValue("Pairs", BallsWhere(h, IsEven)), NamedValue("Impairs", BallsWhere(h, IsOdd))])
    ensures r.Some? ==> (r.value.decades ==
      [NamedValue("1-9", BallsWhere(h, InUnits)), NamedValue("10-19", BallsWhere(h, InTens)),
       NamedValue("20-25", BallsWhere(h, InTwenties))])
    ensures r.Some? ==> r.value.totalDraws == |h|
  {
    if h == [] {
      return None;
    }
    var hot, cold := HotAndCold(h);
    var overdue := Overdue(h);
    var frequencyAll := FrequencyAll(h);
    var even, odd := CountParity(h);
    var units, tens, twenties := CountDecades(h);
    r := Some(Dashboard(hot, cold, overdue, frequencyAll,
      [NamedValue("Pairs", even), NamedValue("Impairs", odd)],
      [NamedValue("1-9", units), NamedValue("10-19", tens), NamedValue("20-25", twenties)],
      |h|));
  }
}
