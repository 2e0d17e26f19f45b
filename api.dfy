/** The helpers of the web API (main.py): the tiered gain of a prediction,
    the per-draw match count of the history view, and the status and message
    of a manual refresh. */
module Api {
  import opened Wrappers
  import opened Draws
  import opened Text
  import opened Store

  // ---------------------------------------------------------------------
  // calculate_gain

  /** `len(set(draw_balls) & set(pred_balls))`. */
  function Matches(drawBalls: seq<int>, predBalls: seq<int>): nat {
    |Elements(drawBalls) * Elements(predBalls)|
  }

  /** The payout for a number of matches. */
  function GainFor(matches: nat): real {
    if matches == 10 then 100000.0
    else if matches == 9 then 500.0
    else if matches == 8 then 50.0
    else if matches == 7 then 7.0
    else if matches == 6 then 1.0
    else 0.0
  }

  /** `calculate_gain`: 0.0 for an empty prediction, otherwise the payout of
      the match count. */
  function CalculateGain(drawBalls: seq<int>, predBalls: seq<int>): (gain: real)
    ensures predBalls == [] ==> gain == 0.0
    ensures predBalls != [] ==> gain == GainFor(Matches(drawBalls, predBalls))
  {
    if predBalls == [] then 0.0 else GainFor(Matches(drawBalls, predBalls))
  }

  /** Up to 10 matches the payout never decreases with more matches. */
  lemma GainMonotone(m1: nat, m2: nat)
    requires m1 <= m2 <= 10
    ensures GainFor(m1) <= GainFor(m2)
  {
  }

  /** Fewer than 6 matches pay nothing; the jackpot is 100000. */
  lemma GainTable(m: nat)
    ensures m < 6 || m > 10 ==> GainFor(m) == 0.0
    ensures 6 <= m <= 10 ==> GainFor(m) > 0.0
    ensures GainFor(m) <= 100000.0
  {
  }

  /** The match count is symmetric and bounded by the number of distinct
      balls on either side. */
  lemma MatchesBounds(a: seq<int>, b: seq<int>)
    ensures Matches(a, b) == Matches(b, a)
    ensures Matches(a, b) <= |Elements(a)| && Matches(a, b) <= |Elements(b)|
    ensures Matches(a, b) <= |a| && Matches(a, b) <= |b|
  {
    assert Elements(a) * Elements(b) == Elements(b) * Elements(a);
    SubsetCard(Elements(a) * Elements(b), Elements(a));
    SubsetCard(Elements(a) * Elements(b), Elements(b));
    ElementsCard(a);
    ElementsCard(b);
  }

  /** A repeated number counts once: adding a number already predicted does
      not change the match count. */
  lemma MatchesIgnoreRepeats(a: seq<int>, b: seq<int>, x: int)
    requires x in b
    ensures Matches(a, b + [x]) == Matches(a, b)
  {
    assert Elements(b + [x]) == Elements(b);
  }

  /** A draw of 10 different balls predicted exactly pays the jackpot. */
  lemma ExactPredictionJackpot(balls: seq<int>)
    requires |Elements(balls)| == 10
    ensures CalculateGain(balls, balls) == 100000.0
  {
    assert Elements(balls) * Elements(balls) == Elements(balls);
  }

  // ---------------------------------------------------------------------
  // get_history

  /** One history row: the record, its prediction (`{}` when absent), the
      gain and the match count. */
  datatype HistoryEntry = HistoryEntry(record: StoredDraw, prediction: Payload, gain: real, matchesCount: nat)

  /** `pred.get("numbers", [])` of `d.prediction_json or {}`. */
  function PredictedNumbers(r: StoredDraw): seq<int> {
    match r.prediction
    case None => []
    case Some(p) => match p.numbers
      case None => []
      case Some(ns) => ns
  }

  /** `get_history` over the rows the query returned (newest first, at most
      `limit`): one entry per row, in the same order, whose match count is
      the overlap with the predicted numbers (0 without any) and whose gain
      is the payout of that count. */
  method GetHistory(rows: seq<StoredDraw>) returns (response: seq<HistoryEntry>)
    ensures |response| == |rows|
    ensures forall i :: 0 <= i < |rows| ==>
      && response[i].record == rows[i]
      && response[i].prediction == (if rows[i].prediction.Some? then rows[i].prediction.value else Payload(None))
      && response[i].matchesCount == Matches(rows[i].balls, PredictedNumbers(rows[i]))
      && response[i].gain == GainFor(response[i].matchesCount)
  {
    response := [];
    for k := 0 to |rows|
      invariant |response| == k
      invariant forall i :: 0 <= i < k ==>
        && response[i].record == rows[i]
        && response[i].prediction == (if rows[i].prediction.Some? then rows[i].prediction.value else Payload(None))
        && response[i].matchesCount == Matches(rows[i].balls, PredictedNumbers(rows[i]))
        && response[i].gain == GainFor(response[i].matchesCount)
    {
      var d := rows[k];
      var pred := if d.prediction.Some? then d.prediction.value else Payload(None);
      var predNumbers := if pred.numbers.Some? then pred.numbers.value else [];
      var matchesCount := if predNumbers != [] then Matches(d.balls, predNumbers) else 0;
      var gain := CalculateGain(d.balls, predNumbers);
      if predNumbers == [] {
        assert Elements(predNumbers) == {};
        assert Elements(d.balls) * Elements(predNumbers) == {};
      }
      response := response + [HistoryEntry(d, pred, gain, matchesCount)];
    }
  }

  // ---------------------------------------------------------------------
  // refresh_data

  /** The result of `refresh_data`. */
  datatype RefreshResponse = RefreshResponse(status: string, message: string, updated: bool)

  const SuccessMessage := "Nouvelle pr\U{E9}diction g\U{E9}n\U{E9}r\U{E9}e avec succ\U{E8}s !"
  const CurrentMessagePrefix := "Il s'agit de la bonne pr\U{E9}diction pour le prochain tirage de "

  /** `next_draw_time_str` for the hour of the clock. */
  function NextDrawLabel(hour: int): string {
    if hour < 13 then "13h00"
    else if hour >= 19 then "demain 13h00"
    else IntToString(hour + 1) + "h00"
  }

  /** The next draw is 13h00 before 13h, tomorrow 13h00 from 19h on, and in
      between the following hour, one of 14h00..19h00, whose digits read
      back as that hour. */
  lemma NextDrawLabelCases(hour: int)
    ensures hour < 13 ==> NextDrawLabel(hour) == "13h00"
    ensures hour >= 19 ==> NextDrawLabel(hour) == "demain 13h00"
    ensures 13 <= hour < 19 ==>
      exists d :: NextDrawLabel(hour) == d + "h00" && ParseInt(d) == Some(hour + 1) && 14 <= hour + 1 <= 19
  {
    if 13 <= hour < 19 {
      ParseIntRoundTrip(hour + 1);
      assert NextDrawLabel(hour) == IntToString(hour + 1) + "h00";
    }
  }

  /** `refresh_data` after the scraper reported `updated`, at the given hour
      of the clock. */
  function RefreshData(updated: bool, hour: int): RefreshResponse {
    var msg := if updated then SuccessMessage else CurrentMessagePrefix + NextDrawLabel(hour) + ".";
    RefreshResponse(if updated then "updated" else "current", msg, updated)
  }

  /** The status is "updated" and the message the success message exactly
      when the scraper updated something; otherwise the status is "current"
      and the message names the next draw. */
  lemma RefreshOutcome(updated: bool, hour: int)
    ensures RefreshData(updated, hour).updated == updated
    ensures RefreshData(updated, hour).status == "updated" <==> updated
    ensures !updated ==> RefreshData(updated, hour).status == "current"
    ensures RefreshData(updated, hour).message == SuccessMessage <==> updated
    ensures !updated ==> RefreshData(updated, hour).message == CurrentMessagePrefix + NextDrawLabel(hour) + "."
  {
    if !updated {
      var m := RefreshData(updated, hour).message;
      assert m == CurrentMessagePrefix + (NextDrawLabel(hour) + ".");
      assert |m| > |CurrentMessagePrefix| > |SuccessMessage|;
    }
  }
}
