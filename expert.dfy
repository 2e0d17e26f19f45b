/** The self-tuning agent (expert_agent.py): a backtest that replays the
    statistical predictor over the end of the log, a 36-point grid search
    over its weights, and the configuration table that holds the active
    weights. The predictor is a parameter: a function from a log prefix and
    weights to the ranked list of predicted numbers (the `numbers` field of
    `calculate_prediction`). */
module ExpertAgent {
  import opened Wrappers
  import opened Draws
  import opened Engine

  type Predictor = (seq<Draw>, Params) -> seq<int>

  /** At least this many earlier draws before a draw is evaluated. */
  const MinRequiredHistory := 20

  /** Numbers of each prediction that are checked. */
  const PredictedPerDraw := 5

  /** Window of `analyze_current_performance` and of the grid search. */
  const AnalysisWindow := 50

  // ---------------------------------------------------------------------
  // backtest: specification

  /** `prediction['numbers'][:5]`. */
  function TopFive(ns: seq<int>): (r: seq<int>)
    ensures |r| <= PredictedPerDraw && r <= ns
    ensures |r| < PredictedPerDraw ==> r == ns
  {
    if |ns| <= PredictedPerDraw then ns else ns[..PredictedPerDraw]
  }

  /** `list(range(n - window, n))`. */
  function TestIndices(n: int, window: int): (r: seq<int>)
    ensures |r| == if window > 0 then window else 0
    ensures forall i :: 0 <= i < |r| ==> r[i] == n - window + i
  {
    seq(if window > 0 then window else 0, i => n - window + i)
  }

  /** The hits on draw idx: numbers shared by the top five predicted from the
      draws before idx and the balls of draw idx. */
  function Hits(h: seq<Draw>, idx: int, p: Params, predict: Predictor): nat
    requires 0 <= idx < |h|
  {
    |Elements(TopFive(predict(h[..idx], p))) * Elements(h[idx].balls)|
  }

  predicate BelowLength(idxs: seq<int>, n: int) {
    forall i :: 0 <= i < |idxs| ==> idxs[i] < n
  }

  /** The `hits` total over the indices idxs, skipping those below 20. */
  function HitsOver(h: seq<Draw>, idxs: seq<int>, p: Params, predict: Predictor): nat
    requires BelowLength(idxs, |h|)
  {
    if idxs == [] then 0
    else
      var idx := idxs[|idxs| - 1];
      HitsOver(h, idxs[..|idxs| - 1], p, predict) + (if idx < MinRequiredHistory then 0 else Hits(h, idx, p, predict))
  }

  /** How many of the indices idxs are evaluated (not below 20). */
  function EvaluatedOver(idxs: seq<int>): nat {
    if idxs == [] then 0
    else EvaluatedOver(idxs[..|idxs| - 1]) + (if idxs[|idxs| - 1] < MinRequiredHistory then 0 else 1)
  }

  /** `backtest(params, history, window_size)`: hits over 5 per evaluated
      draw, or 0.0 when nothing was evaluated. */
  function Accuracy(h: seq<Draw>, window: int, p: Params, predict: Predictor): real {
    var idxs := TestIndices(|h|, window);
    var total := PredictedPerDraw * EvaluatedOver(idxs);
    if total == 0 then 0.0 else (HitsOver(h, idxs, p, predict) as real) / (total as real)
  }

  // ---------------------------------------------------------------------
  // backtest: properties

  /** One draw scores at most 5 hits: the top five has at most 5 distinct
      numbers. */
  lemma HitsBound(h: seq<Draw>, idx: int, p: Params, predict: Predictor)
    requires 0 <= idx < |h|
    ensures Hits(h, idx, p, predict) <= PredictedPerDraw
  {
    var top := TopFive(predict(h[..idx], p));
    ElementsCard(top);
    SubsetCard(Elements(top) * Elements(h[idx].balls), Elements(top));
  }

  /** The hits total never exceeds 5 per evaluated draw. */
  lemma {:induction false} HitsOverBound(h: seq<Draw>, idxs: seq<int>, p: Params, predict: Predictor)
    requires BelowLength(idxs, |h|)
    ensures HitsOver(h, idxs, p, predict) <= PredictedPerDraw * EvaluatedOver(idxs)
  {
    if idxs != [] {
      var idx := idxs[|idxs| - 1];
      HitsOverBound(h, idxs[..|idxs| - 1], p, predict);
      if idx >= MinRequiredHistory {
        HitsBound(h, idx, p, predict);
      }
    }
  }

  /** The accuracy lies in [0, 1]. */
  lemma AccuracyInUnit(h: seq<Draw>, window: int, p: Params, predict: Predictor)
    ensures 0.0 <= Accuracy(h, window, p, predict) <= 1.0
  {
    var idxs := TestIndices(|h|, window);
    HitsOverBound(h, idxs, p, predict);
    var total := PredictedPerDraw * EvaluatedOver(idxs);
    if total > 0 {
      DivUnitNat(HitsOver(h, idxs, p, predict), total);
    }
  }

  lemma DivUnitNat(a: nat, t: nat)
    requires a <= t && t > 0
    ensures 0.0 <= (a as real) / (t as real) <= 1.0
  {
  }

  /** Among the first j window indices, exactly those from max(n - window,
      20) on are evaluated. */
  lemma {:induction false} EvaluatedPrefix(n: int, window: int, j: nat)
    requires j <= |TestIndices(n, window)|
    ensures var lo := if n - window < MinRequiredHistory then MinRequiredHistory else n - window;
      EvaluatedOver(TestIndices(n, window)[..j]) == if n - window + j <= lo then 0 else n - window + j - lo
  {
    if j > 0 {
      var idxs := TestIndices(n, window);
      assert idxs[..j][..j - 1] == idxs[..j - 1];
      EvaluatedPrefix(n, window, j - 1);
    }
  }

  /** The number of evaluated draws: the window indices from max(n - window,
      20) up to n, so a log of at most 20 draws is never evaluated. */
  lemma EvaluatedCount(n: int, window: int)
    ensures var lo := if n - window < MinRequiredHistory then MinRequiredHistory else n - window;
      EvaluatedOver(TestIndices(n, window)) == if window <= 0 || n <= lo then 0 else n - lo
  {
    var idxs := TestIndices(n, window);
    EvaluatedPrefix(n, window, |idxs|);
    assert idxs[..|idxs|] == idxs;
  }

  /** No look-ahead: the hits on draw idx depend only on the draws up to and
      including idx. */
  lemma HitsUsePast(h: seq<Draw>, g: seq<Draw>, idx: int, p: Params, predict: Predictor)
    requires 0 <= idx < |h| && idx < |g| && h[..idx + 1] == g[..idx + 1]
    ensures Hits(h, idx, p, predict) == Hits(g, idx, p, predict)
  {
    assert h[..idx] == h[..idx + 1][..idx] == g[..idx + 1][..idx] == g[..idx];
    assert h[idx] == h[..idx + 1][idx] == g[..idx + 1][idx] == g[idx];
  }

  /** The hits total over indices below k is the same for two logs that
      agree on their first k draws. */
  lemma {:induction false} HitsOverUsePast(h: seq<Draw>, g: seq<Draw>, idxs: seq<int>, k: int, p: Params, predict: Predictor)
    requires BelowLength(idxs, k) && 0 <= k <= |h| && k <= |g| && h[..k] == g[..k]
    ensures HitsOver(h, idxs, p, predict) == HitsOver(g, idxs, p, predict)
  {
    if idxs != [] {
      var idx := idxs[|idxs| - 1];
      HitsOverUsePast(h, g, idxs[..|idxs| - 1], k, p, predict);
      if idx >= MinRequiredHistory {
        assert h[..idx + 1] == h[..k][..idx + 1] == g[..k][..idx + 1] == g[..idx + 1];
        HitsUsePast(h, g, idx, p, predict);
      }
    }
  }

  // ---------------------------------------------------------------------
  // backtest: the loop

  /** `ExpertMathAgent.backtest`: for each window index from 20 on, predict
      from the draws before it, count the top five's hits on it and add 5
      to the total. */
  method Backtest(p: Params, h: seq<Draw>, window: int, predict: Predictor) returns (accuracy: real)
    ensures accuracy == Accuracy(h, window, p, predict)
  {
    var testIndices := TestIndices(|h|, window);
    var hits, totalPredictions := 0, 0;
    for i := 0 to |testIndices|
      invariant hits == HitsOver(h, testIndices[..i], p, predict)
      invariant totalPredictions == PredictedPerDraw * EvaluatedOver(testIndices[..i])
    {
      var idx := testIndices[i];
      assert testIndices[..i + 1][..i] == testIndices[..i];
      if idx < MinRequiredHistory {
        continue;
      }
      var pastData := h[..idx];
      var actualDraw := h[idx];
      var predicted := Elements(TopFive(predict(pastData, p)));
      var actual := Elements(actualDraw.balls);
      var common := predicted * actual;
      hits := hits + |common|;
      totalPredictions := totalPredictions + PredictedPerDraw;
    }
    assert testIndices[..|testIndices|] == testIndices;
    if totalPredictions == 0 {
      return 0.0;
    }
    accuracy := (hits as real) / (totalPredictions as real);
  }

  /** `analyze_current_performance`: no result for an empty log, otherwise
      the backtest accuracy of the current weights over the last 50 draws. */
  method AnalyzeCurrentPerformance(h: seq<Draw>, current: Params, predict: Predictor) returns (r: Option<real>)
    ensures h == [] <==> r == None
    ensures r.Some? ==> r.value == Accuracy(h, AnalysisWindow, current, predict) && 0.0 <= r.value <= 1.0
  {
    if h == [] {
      return None;
    }
    var score := Backtest(current, h, AnalysisWindow, predict);
    AccuracyInUnit(h, AnalysisWindow, current, predict);
    return Some(score);
  }

  // ---------------------------------------------------------------------
  // evolve_formula

  /** Not enough data needs fewer than this many draws. */
  const MinEvolveHistory := 50

  const FreqGrid: seq<real> := [0.2, 0.4, 0.6, 0.8]
  const GapGrid: seq<real> := [0.2, 0.5, 0.8]
  const DecayGrid: seq<real> := [0.1, 0.15, 0.2]

  /** The 36 grid points in the order of the three nested loops. */
  function GridPoint(k: int): Params
    requires 0 <= k < 36
  {
    Params(FreqGrid[k / 9], GapGrid[k % 9 / 3], DecayGrid[k % 3])
  }

  lemma GridPointAt(fi: int, gi: int, di: int)
    requires 0 <= fi < 4 && 0 <= gi < 3 && 0 <= di < 3
    ensures 0 <= 9 * fi + 3 * gi + di < 36
    ensures GridPoint(9 * fi + 3 * gi + di) == Params(FreqGrid[fi], GapGrid[gi], DecayGrid[di])
  {
    var k := 9 * fi + 3 * gi + di;
    assert k / 9 == fi;
    assert k % 9 == 3 * gi + di;
    assert k % 9 / 3 == gi;
    assert k % 3 == di;
  }

  /** The best accuracy after the candidates scores: start from cur and
      replace only on a strictly greater score. */
  function Best(cur: real, scores: seq<real>): real {
    if scores == [] then cur
    else
      var b := Best(cur, scores[..|scores| - 1]);
      if scores[|scores| - 1] > b then scores[|scores| - 1] else b
  }

  /** Which candidate was kept last, -1 for none. */
  function BestAt(cur: real, scores: seq<real>): (r: int)
    ensures -1 <= r < |scores|
  {
    if scores == [] then -1
    else if scores[|scores| - 1] > Best(cur, scores[..|scores| - 1]) then |scores| - 1
    else BestAt(cur, scores[..|scores| - 1])
  }

  /** The kept score is the maximum of cur and all candidate scores; no
      candidate is kept iff none beats cur, and otherwise the kept one is the
      earliest that reaches the maximum. */
  lemma {:induction false} BestFacts(cur: real, scores: seq<real>)
    ensures cur <= Best(cur, scores)
    ensures forall j :: 0 <= j < |scores| ==> scores[j] <= Best(cur, scores)
    ensures -1 <= BestAt(cur, scores) < |scores|
    ensures BestAt(cur, scores) == -1 <==> Best(cur, scores) == cur
    ensures BestAt(cur, scores) >= 0 ==>
      && scores[BestAt(cur, scores)] == Best(cur, scores) && cur < Best(cur, scores)
      && forall j :: 0 <= j < BestAt(cur, scores) ==> scores[j] < Best(cur, scores)
  {
    if scores != [] {
      var q := scores[..|scores| - 1];
      BestFacts(cur, q);
      assert forall j :: 0 <= j < |q| ==> scores[j] == q[j];
    }
  }

  /** The result of `evolve_formula`. */
  datatype Evolution =
    | NotEnoughData
    | FoundBetter(currentAccuracy: real, bestAccuracy: real, improvement: real, proposed: Params)
    | Optimal

  /** The accuracy of each grid point over the last 50 draws. */
  function GridScores(h: seq<Draw>, predict: Predictor): (r: seq<real>)
    ensures |r| == 36
  {
    seq(36, k requires 0 <= k < 36 => Accuracy(h, AnalysisWindow, GridPoint(k), predict))
  }

  /** `(best - current) / current`, 0 when current is 0. */
  function Improvement(current: real, best: real): real {
    if current > 0.0 then (best - current) / current else 0.0
  }

  /** After the first k candidates: the running best is Best over their
      scores, and the kept weights are those of the candidate Best kept. */
  ghost predicate Searched(cur: real, current: Params, scores: seq<real>, k: int, best: real, bestParams: Params)
    requires |scores| == 36
  {
    && 0 <= k <= 36
    && best == Best(cur, scores[..k])
    && bestParams == (if BestAt(cur, scores[..k]) >= 0 then GridPoint(BestAt(cur, scores[..k])) else current)
  }

  /** One candidate of the grid loop. */
  lemma SearchStep(cur: real, current: Params, scores: seq<real>, k: int, best: real, bestParams: Params)
    requires |scores| == 36 && k < 36 && Searched(cur, current, scores, k, best, bestParams)
    ensures Searched(cur, current, scores, k + 1,
      if scores[k] > best then scores[k] else best,
      if scores[k] > best then GridPoint(k) else bestParams)
  {
    assert scores[..k + 1][..k] == scores[..k];
  }

  /** The triple loop over the grid: the best accuracy and its weights. */
  method GridSearch(h: seq<Draw>, current: Params, currentAccuracy: real, predict: Predictor)
    returns (bestAccuracy: real, bestParams: Params)
    ensures Searched(currentAccuracy, current, GridScores(h, predict), 36, bestAccuracy, bestParams)
  {
    bestAccuracy := currentAccuracy;
    bestParams := current;
    ghost var scores := GridScores(h, predict);
    ghost var k := 0;
    for fi := 0 to |FreqGrid|
      invariant k == 9 * fi
      invariant Searched(currentAccuracy, current, scores, k, bestAccuracy, bestParams)
    {
      for gi := 0 to |GapGrid|
        invariant k == 9 * fi + 3 * gi
        invariant Searched(currentAccuracy, current, scores, k, bestAccuracy, bestParams)
      {
        for di := 0 to |DecayGrid|
          invariant k == 9 * fi + 3 * gi + di
          invariant Searched(currentAccuracy, current, scores, k, bestAccuracy, bestParams)
        {
          var params := Params(FreqGrid[fi], GapGrid[gi], DecayGrid[di]);
          var score := Backtest(params, h, AnalysisWindow, predict);
          GridPointAt(fi, gi, di);
          SearchStep(currentAccuracy, current, scores, k, bestAccuracy, bestParams);
          if score > bestAccuracy {
            bestAccuracy := score;
            bestParams := params;
          }
          k := k + 1;
        }
      }
    }
  }

  /** r is the outcome of the search for the current accuracy cur and the
      grid scores: better weights are found iff some grid point beats cur;
      then the reported best is the maximum score, reached first by the
      proposed grid point, and the improvement is relative to cur. */
  ghost predicate IsEvolution(r: Evolution, cur: real, scores: seq<real>)
    requires |scores| == 36
  {
    && !r.NotEnoughData?
    && (r.FoundBetter? <==> exists k :: 0 <= k < 36 && scores[k] > cur)
    && (r.FoundBetter? ==>
          && r.currentAccuracy == cur && cur < r.bestAccuracy
          && r.improvement == Improvement(cur, r.bestAccuracy)
          && (forall k :: 0 <= k < 36 ==> scores[k] <= r.bestAccuracy)
          && exists k :: 0 <= k < 36 && r.proposed == GridPoint(k) && scores[k] == r.bestAccuracy
               && forall j :: 0 <= j < k ==> scores[j] < r.bestAccuracy)
  }

  /** The finished search gives the outcome IsEvolution describes. */
  lemma SearchOutcome(cur: real, current: Params, scores: seq<real>, best: real, bestParams: Params)
    requires |scores| == 36 && Searched(cur, current, scores, 36, best, bestParams)
    ensures IsEvolution(if best > cur then FoundBetter(cur, best, Improvement(cur, best), bestParams) else Optimal, cur, scores)
  {
    assert scores[..36] == scores;
    BestFacts(cur, scores);
    if best > cur {
      var at := BestAt(cur, scores);
      assert scores[at] == best;
    }
  }

  /** `evolve_formula` for the log h and the current weights: not enough
      data below 50 draws, otherwise the outcome of the grid search against
      the backtest accuracy of the current weights. */
  method EvolveFormula(h: seq<Draw>, current: Params, predict: Predictor) returns (r: Evolution)
    ensures |h| < MinEvolveHistory ==> r == NotEnoughData
    ensures |h| >= MinEvolveHistory ==>
      IsEvolution(r, Accuracy(h, AnalysisWindow, current, predict), GridScores(h, predict))
  {
    if |h| < MinEvolveHistory {
      return NotEnoughData;
    }
    var currentAccuracy := Backtest(current, h, AnalysisWindow, predict);
    var bestAccuracy, bestParams := GridSearch(h, current, currentAccuracy, predict);
    SearchOutcome(currentAccuracy, current, GridScores(h, predict), bestAccuracy, bestParams);
    if bestAccuracy > currentAccuracy {
      var improvement := Improvement(currentAccuracy, bestAccuracy);
      return FoundBetter(currentAccuracy, bestAccuracy, improvement, bestParams);
    }
    return Optimal;
  }

  // ---------------------------------------------------------------------
  // The configuration table

  /** One `AlgorithmConfiguration` row. */
  datatype Config = Config(active: bool, params: Params, notes: string)

  /** The first active row's weights, or the defaults when none is active
      (`get_current_config`). */
  function CurrentParams(rows: seq<Config>): Params {
    if rows == [] then DefaultParams
    else if rows[0].active then rows[0].params
    else CurrentParams(rows[1..])
  }

  function ActiveCount(rows: seq<Config>): nat {
    if rows == [] then 0 else ActiveCount(rows[..|rows| - 1]) + (if rows[|rows| - 1].active then 1 else 0)
  }

  /** Every row inactive. */
  function Deactivated(rows: seq<Config>): (r: seq<Config>)
    ensures |r| == |rows|
    ensures forall i :: 0 <= i < |rows| ==> r[i] == rows[i].(active := false)
  {
    seq(|rows|, i requires 0 <= i < |rows| => rows[i].(active := false))
  }

  /** The table `algorithm_config`. */
  class ConfigTable {
    var rows: seq<Config>

    constructor ()
      ensures rows == []
    {
      rows := [];
    }

    /** `get_current_config`. */
    function CurrentConfig(): Params
      reads this
    {
      CurrentParams(rows)
    }

    /** `apply_new_parameters`: deactivate every row, then add an active row
        with the given weights and notes. */
    method ApplyNewParameters(p: Params, notes: string)
      modifies this
      ensures rows == Deactivated(old(rows)) + [Config(true, p, notes)]
      ensures ActiveCount(rows) == 1 && CurrentConfig() == p
    {
      rows := Deactivated(rows) + [Config(true, p, notes)];
      DeactivatedFacts(old(rows), p, notes);
    }
  }

  /** After deactivating every row and adding one active row, exactly one
      row is active and its weights are the current ones. */
  lemma DeactivatedFacts(rows: seq<Config>, p: Params, notes: string)
    ensures ActiveCount(Deactivated(rows) + [Config(true, p, notes)]) == 1
    ensures CurrentParams(Deactivated(rows) + [Config(true, p, notes)]) == p
  {
    var d := Deactivated(rows);
    NoneActive(d);
    assert (d + [Config(true, p, notes)])[..|d|] == d;
    SkipInactive(d, [Config(true, p, notes)]);
  }

  lemma {:induction false} NoneActive(rows: seq<Config>)
    requires forall i :: 0 <= i < |rows| ==> !rows[i].active
    ensures ActiveCount(rows) == 0
  {
    if rows != [] {
      NoneActive(rows[..|rows| - 1]);
    }
  }

  lemma {:induction false} SkipInactive(rows: seq<Config>, rest: seq<Config>)
    requires forall i :: 0 <= i < |rows| ==> !rows[i].active
    ensures CurrentParams(rows + rest) == CurrentParams(rest)
  {
    if rows != [] {
      assert (rows + rest)[0] == rows[0] && !rows[0].active;
      assert (rows + rest)[1..] == rows[1..] + rest;
      assert forall i :: 0 <= i < |rows[1..]| ==> rows[1..][i] == rows[i + 1];
      SkipInactive(rows[1..], rest);
    } else {
      assert rows + rest == rest;
    }
  }
}
