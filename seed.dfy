/** Seeding the store from the semicolon-separated export (init_db.py).
    Column 0 holds the draw id, 1 the date (day/month/year), 2 the time
    (hour:minute:second), 4 to 13 the ten balls and 14 the bonus letter. A
    row that does not fit is skipped; seeding does nothing when the store
    already holds a draw. */
module Seed {
  import opened Wrappers
  import opened Text
  import opened Calendar
  import opened Store

  const FirstBallColumn := 4
  const BallCount := 10
  const BonusColumn := 14

  /** `[int(row[i]) for i in range(4, 14)]`, None on a ValueError or an
      IndexError. */
  function RowBalls(row: seq<string>): (r: Option<seq<int>>)
    ensures r.Some? ==> |r.value| == BallCount && |row| >= FirstBallColumn + BallCount
    ensures r.Some? ==> forall i :: 0 <= i < BallCount ==> ParseInt(row[FirstBallColumn + i]) == Some(r.value[i])
  {
    if |row| >= FirstBallColumn + BallCount
      && forall i :: FirstBallColumn <= i < FirstBallColumn + BallCount ==> ParseInt(row[i]).Some?
    then Some(seq(BallCount, i requires 0 <= i < BallCount => ParseInt(row[FirstBallColumn + i]).value))
    else None
  }

  /** The draw a row yields, None when the row is skipped. */
  function ParseRow(row: seq<string>): Option<StoredDraw> {
    if |row| <= BonusColumn then None
    else
      match (ParseInt(row[0]), ParseDate(row[1]), ParseTime(row[2]), RowBalls(row))
      case (Some(id), Some(date), Some(time), Some(balls)) =>
        Some(StoredDraw(id, date, time, balls, row[BonusColumn], CsvSource, None))
      case _ => None
  }

  /** What an accepted row yields: ten balls read in order from columns
      4..13, the bonus from column 14, the id from column 0, a valid date
      and time, source 'csv'; a row is accepted only with at least 15
      columns and a readable id, date, time and balls. */
  lemma ParseRowFacts(row: seq<string>)
    ensures ParseRow(row).Some? <==>
      && |row| > BonusColumn
      && ParseInt(row[0]).Some? && ParseDate(row[1]).Some? && ParseTime(row[2]).Some?
      && forall i :: FirstBallColumn <= i < FirstBallColumn + BallCount ==> ParseInt(row[i]).Some?
    ensures ParseRow(row).Some? ==>
      var d := ParseRow(row).value;
      && |d.balls| == BallCount
      && (forall i :: 0 <= i < BallCount ==> Some(d.balls[i]) == ParseInt(row[FirstBallColumn + i]))
      && d.bonus == row[BonusColumn] && d.source == CsvSource && Some(d.drawId) == ParseInt(row[0])
      && ValidDate(d.date) && ValidTime(d.time)
  {
  }

  /** A row written from a draw reads back as that draw: id, date and time in
      the export's formats, any text in column 3, the ten balls, the bonus. */
  function RenderRow(d: StoredDraw, column3: string): seq<string>
    requires ValidDate(d.date) && ValidTime(d.time) && |d.balls| == BallCount
  {
    [IntToString(d.drawId), FormatDate(d.date), FormatTime(d.time), column3]
      + seq(BallCount, i requires 0 <= i < BallCount => IntToString(d.balls[i]))
      + [d.bonus]
  }

  lemma ParseRenderRow(d: StoredDraw, column3: string)
    requires ValidDate(d.date) && ValidTime(d.time) && |d.balls| == BallCount
    requires d.source == CsvSource && d.prediction == None
    ensures ParseRow(RenderRow(d, column3)) == Some(d)
  {
    var row := RenderRow(d, column3);
    ParseIntRoundTrip(d.drawId);
    ParseFormatDate(d.date);
    ParseFormatTime(d.time);
    forall i | FirstBallColumn <= i < FirstBallColumn + BallCount
      ensures ParseInt(row[i]) == Some(d.balls[i - FirstBallColumn])
    {
      ParseIntRoundTrip(d.balls[i - FirstBallColumn]);
    }
    var balls := RowBalls(row).value;
    assert balls == d.balls;
  }

  /** The draws of the accepted rows, in file order. */
  function Accepted(rows: seq<seq<string>>): seq<StoredDraw> {
    if rows == [] then []
    else
      var row := rows[|rows| - 1];
      Accepted(rows[..|rows| - 1]) + (if row != [] && ParseRow(row).Some? then [ParseRow(row).value] else [])
  }

  /** The per-row body: id, date and time, then the ball loop, then the
      bonus; None where the source skips the row. */
  method ReadRow(row: seq<string>) returns (r: Option<StoredDraw>)
    requires row != []
    ensures r == ParseRow(row)
  {
    ParseRowFacts(row);
    var drawId := ParseInt(row[0]);
    if drawId.None? || |row| < 3 {
      return None;
    }
    var dateObj := ParseDate(row[1]);
    var timeObj := ParseTime(row[2]);
    if dateObj.None? || timeObj.None? {
      return None;
    }
    var balls: seq<int> := [];
    for i := FirstBallColumn to FirstBallColumn + BallCount
      invariant |balls| == i - FirstBallColumn && (balls != [] ==> i <= |row|)
      invariant forall j :: 0 <= j < |balls| ==> ParseInt(row[FirstBallColumn + j]) == Some(balls[j])
    {
      if i >= |row| || ParseInt(row[i]).None? {
        return None;
      }
      balls := balls + [ParseInt(row[i]).value];
    }
    if |row| <= BonusColumn {
      return None;
    }
    var bonusLetter := row[BonusColumn];
    r := Some(StoredDraw(drawId.value, dateObj.value, timeObj.value, balls, bonusLetter, CsvSource, None));
    ParseRowOf(row, r.value);
  }

  /** A row whose columns read as the fields of `d` yields `d`. */
  lemma ParseRowOf(row: seq<string>, d: StoredDraw)
    requires |row| > BonusColumn && |d.balls| == BallCount
    requires Some(d.drawId) == ParseInt(row[0]) && Some(d.date) == ParseDate(row[1]) && Some(d.time) == ParseTime(row[2])
    requires forall j :: 0 <= j < BallCount ==> ParseInt(row[FirstBallColumn + j]) == Some(d.balls[j])
    requires d.bonus == row[BonusColumn] && d.source == CsvSource && d.prediction == None
    ensures ParseRow(row) == Some(d)
  {
    forall i | FirstBallColumn <= i < FirstBallColumn + BallCount
      ensures ParseInt(row[i]).Some?
    {
      assert ParseInt(row[FirstBallColumn + (i - FirstBallColumn)]) == Some(d.balls[i - FirstBallColumn]);
    }
    assert RowBalls(row).value == d.balls;
  }

  /** `seed_database`: nothing when the store already holds a draw (None);
      otherwise every accepted row is added in file order, empty rows and
      skipped rows are not counted, and the count is the number added. */
  method SeedDatabase(store: DrawStore, rows: seq<seq<string>>) returns (count: Option<nat>)
    modifies store
    ensures old(store.records) != [] ==> count == None && store.records == old(store.records)
    ensures old(store.records) == [] ==>
      store.records == Accepted(rows) && count == Some(|Accepted(rows)|)
  {
    if store.records != [] {
      return None;
    }
    var n := 0;
    for k := 0 to |rows|
      invariant store.records == Accepted(rows[..k]) && n == |store.records|
    {
      var row := rows[k];
      assert rows[..k + 1][..k] == rows[..k];
      if row == [] {
        continue;
      }
      var draw := ReadRow(row);
      if draw.None? {
        continue;
      }
      store.AddDraw(draw.value);
      n := n + 1;
    }
    assert rows[..|rows|] == rows;
    return Some(n);
  }

  /** Every seeded record carries ten balls and source 'csv'. */
  lemma {:induction false} AcceptedShape(rows: seq<seq<string>>)
    ensures forall i :: 0 <= i < |Accepted(rows)| ==>
      |Accepted(rows)[i].balls| == BallCount && Accepted(rows)[i].source == CsvSource
    ensures |Accepted(rows)| <= |rows|
  {
    if rows != [] {
      var row := rows[|rows| - 1];
      AcceptedShape(rows[..|rows| - 1]);
      if row != [] && ParseRow(row).Some? {
        ParseRowFacts(row);
      }
    }
  }
}
