/** The stored draw records (the `draws` collection of models.py) and the
    few store operations the core relies on: counting, lookup by date and
    time, adding and updating a record, the order by date and time that
    every read of the whole log uses, and the settled log the matrix engine
    reads (the records in that order, except those still marked
    'ai_pending'). */
module Store {
  import opened Wrappers
  import opened Draws
  import opened Calendar

  /** The part of `prediction_json` the core reads: its `numbers` list,
      when it has one. */
  datatype Payload = Payload(numbers: Option<seq<int>>)

  /** One stored draw. */
  datatype StoredDraw = StoredDraw(
    drawId: int,
    date: Date,
    time: Time,
    balls: seq<int>,
    bonus: string,
    source: string,
    prediction: Option<Payload>)

  const PendingSource := "ai_pending"
  const ScrapeSource := "scrape"
  const CsvSource := "csv"

  function ToDraw(r: StoredDraw): Draw {
    Draw(r.balls, r.bonus)
  }

  /** `[d for d in draws if d.source != 'ai_pending']`, in store order. */
  function Settled(records: seq<StoredDraw>): (h: seq<Draw>)
    ensures |h| <= |records|
  {
    if records == [] then []
    else
      var last := records[|records| - 1];
      Settled(records[..|records| - 1]) + (if last.source == PendingSource then [] else [ToDraw(last)])
  }

  /** Settling keeps exactly the records that are not pending. */
  lemma {:induction false} SettledCount(records: seq<StoredDraw>)
    ensures |Settled(records)| == |records| - PendingCount(records)
  {
    if records != [] {
      SettledCount(records[..|records| - 1]);
    }
  }

  /** Settling is a filter: it keeps store order and repeats. */
  lemma {:induction false} SettledFilter(a: seq<StoredDraw>, b: seq<StoredDraw>)
    ensures Settled(a + b) == Settled(a) + Settled(b)
  {
    if b == [] {
      assert a + b == a;
    } else {
      var init, last := b[..|b| - 1], b[|b| - 1];
      assert (a + b)[..|a + b| - 1] == a + init;
      calc {
        Settled(a + b);
        Settled(a + init) + (if last.source == PendingSource then [] else [ToDraw(last)]);
        { SettledFilter(a, init); }
        Settled(a) + Settled(init) + (if last.source == PendingSource then [] else [ToDraw(last)]);
        Settled(a) + (Settled(init) + (if last.source == PendingSource then [] else [ToDraw(last)]));
      }
    }
  }

  /** A single record is kept, as its draw, exactly when it is not pending. */
  lemma SettledOne(r: StoredDraw)
    ensures Settled([r]) == (if r.source == PendingSource then [] else [ToDraw(r)])
  {
    assert [r][..0] == [];
  }

  /** The settled log holds the draw of every record that is not pending,
      and nothing else. */
  lemma {:induction false} SettledMembers(records: seq<StoredDraw>)
    ensures forall i :: 0 <= i < |records| && records[i].source != PendingSource ==> ToDraw(records[i]) in Settled(records)
    ensures forall d :: d in Settled(records) ==>
      exists i :: 0 <= i < |records| && records[i].source != PendingSource && ToDraw(records[i]) == d
  {
    if records != [] {
      var init := records[..|records| - 1];
      SettledMembers(init);
      assert forall i :: 0 <= i < |init| ==> init[i] == records[i];
    }
  }

  // ---------------------------------------------------------------------
  // Date and time order

  /** Record a is dated strictly before record b. The store keeps dates and
      times as the ISO strings "YYYY-MM-DD" and "HH:MM:SS", and for four-digit
      years their string order is this field-by-field order. */
  predicate SlotBefore(a: StoredDraw, b: StoredDraw) {
    var x, y := a.date, b.date;
    var s, t := a.time, b.time;
    x.year < y.year || (x.year == y.year &&
    (x.month < y.month || (x.month == y.month &&
    (x.day < y.day || (x.day == y.day &&
    (s.hour < t.hour || (s.hour == t.hour &&
    (s.minute < t.minute || (s.minute == t.minute && s.second < t.second)))))))))
  }

  /** "Not after" is transitive. */
  lemma NotAfterTrans(x: StoredDraw, y: StoredDraw, z: StoredDraw)
    requires !SlotBefore(y, x) && !SlotBefore(z, y)
    ensures !SlotBefore(z, x)
  {
  }

  /** No record is dated after a later one. */
  predicate DateTimeSorted(s: seq<StoredDraw>) {
    forall i, j :: 0 <= i < j < |s| ==> !SlotBefore(s[j], s[i])
  }

  /** r placed after every record of s that is not dated after it. */
  function InsertByDateTime(s: seq<StoredDraw>, r: StoredDraw): seq<StoredDraw> {
    if s == [] || !SlotBefore(r, s[|s| - 1]) then s + [r]
    else InsertByDateTime(s[..|s| - 1], r) + [s[|s| - 1]]
  }

  /** `order_by("date").order_by("time")`: the records by date, then time. */
  function SortByDateTime(records: seq<StoredDraw>): seq<StoredDraw> {
    if records == [] then []
    else InsertByDateTime(SortByDateTime(records[..|records| - 1]), records[|records| - 1])
  }

  /** Inserting adds r to the records and nothing else. */
  lemma {:induction false} InsertByDateTimePerm(s: seq<StoredDraw>, r: StoredDraw)
    ensures multiset(InsertByDateTime(s, r)) == multiset(s) + multiset{r}
  {
    if s != [] && SlotBefore(r, s[|s| - 1]) {
      var init := s[..|s| - 1];
      assert s == init + [s[|s| - 1]];
      InsertByDateTimePerm(init, r);
    }
  }

  lemma AppendSorted(s: seq<StoredDraw>, x: StoredDraw)
    requires DateTimeSorted(s)
    requires forall i :: 0 <= i < |s| ==> !SlotBefore(x, s[i])
    ensures DateTimeSorted(s + [x])
  {
  }

  /** Inserting into sorted records keeps them sorted. */
  lemma {:induction false} InsertByDateTimeSorted(s: seq<StoredDraw>, r: StoredDraw)
    requires DateTimeSorted(s)
    ensures DateTimeSorted(InsertByDateTime(s, r))
  {
    if s == [] || !SlotBefore(r, s[|s| - 1]) {
      forall i | 0 <= i < |s|
        ensures !SlotBefore(r, s[i])
      {
        if i < |s| - 1 {
          NotAfterTrans(s[i], s[|s| - 1], r);
        }
      }
      AppendSorted(s, r);
    } else {
      var init, last := s[..|s| - 1], s[|s| - 1];
      var t := InsertByDateTime(init, r);
      InsertByDateTimeSorted(init, r);
      InsertByDateTimePerm(init, r);
      forall i | 0 <= i < |t|
        ensures !SlotBefore(last, t[i])
      {
        assert t[i] in multiset(t);
        if t[i] != r {
          assert t[i] in multiset(init);
          var k :| 0 <= k < |init| && init[k] == t[i];
          assert s[k] == init[k];
        }
      }
      AppendSorted(t, last);
    }
  }

  /** The records by date and time are a sorted permutation of the store. */
  lemma {:induction false} SortByDateTimeFacts(records: seq<StoredDraw>)
    ensures DateTimeSorted(SortByDateTime(records))
    ensures multiset(SortByDateTime(records)) == multiset(records)
  {
    if records != [] {
      var init, last := records[..|records| - 1], records[|records| - 1];
      assert records == init + [last];
      SortByDateTimeFacts(init);
      InsertByDateTimeSorted(SortByDateTime(init), last);
      InsertByDateTimePerm(SortByDateTime(init), last);
    }
  }

  /** `get_all_draws_sorted()` of matrix_engine.py: the records by date and
      time, those still marked 'ai_pending' dropped. */
  function SettledByDateTime(records: seq<StoredDraw>): seq<Draw> {
    Settled(SortByDateTime(records))
  }

  lemma {:induction false} SettledInsert(s: seq<StoredDraw>, r: StoredDraw)
    ensures multiset(Settled(InsertByDateTime(s, r))) == multiset(Settled(s)) + multiset(Settled([r]))
  {
    if s == [] || !SlotBefore(r, s[|s| - 1]) {
      SettledFilter(s, [r]);
    } else {
      var init, last := s[..|s| - 1], s[|s| - 1];
      assert s == init + [last];
      SettledInsert(init, r);
      SettledFilter(InsertByDateTime(init, r), [last]);
      SettledFilter(init, [last]);
    }
  }

  /** Sorting by date and time changes the order of the settled log only: it
      holds the same draws, as many times each, in date and time order. */
  lemma {:induction false} SettledByDateTimeFacts(records: seq<StoredDraw>)
    ensures multiset(SettledByDateTime(records)) == multiset(Settled(records))
    ensures |SettledByDateTime(records)| == |records| - PendingCount(records)
  {
    if records != [] {
      var init, last := records[..|records| - 1], records[|records| - 1];
      assert records == init + [last];
      SettledByDateTimeFacts(init);
      SettledInsert(SortByDateTime(init), last);
      SettledFilter(init, [last]);
    }
    SettledCount(records);
  }

  function PendingCount(records: seq<StoredDraw>): nat {
    if records == [] then 0
    else PendingCount(records[..|records| - 1]) + (if records[|records| - 1].source == PendingSource then 1 else 0)
  }

  /** The position of the first record with this date and time. */
  function FirstMatch(records: seq<StoredDraw>, date: Date, time: Time): (r: Option<nat>)
    ensures r.Some? ==> r.value < |records| && records[r.value].date == date && records[r.value].time == time
    ensures r.Some? ==> forall j :: 0 <= j < r.value ==> !(records[j].date == date && records[j].time == time)
    ensures r.None? ==> forall j :: 0 <= j < |records| ==> !(records[j].date == date && records[j].time == time)
  {
    if records == [] then None
    else if records[0].date == date && records[0].time == time then Some(0)
    else match FirstMatch(records[1..], date, time)
      case None => None
      case Some(k) => Some(k + 1)
  }

  class DrawStore {
    var records: seq<StoredDraw>

    constructor (initial: seq<StoredDraw>)
      ensures records == initial
    {
      records := initial;
    }

    /** `get_draw_count`: every record, pending ones included. */
    function DrawCount(): nat
      reads this
    {
      |records|
    }

    /** `get_draw_by_date_time`: the first record with this date and time. */
    method FindByDateTime(date: Date, time: Time) returns (r: Option<nat>)
      ensures r == FirstMatch(records, date, time)
    {
      var i := 0;
      while i < |records|
        invariant 0 <= i <= |records|
        invariant forall j :: 0 <= j < i ==> !(records[j].date == date && records[j].time == time)
      {
        if records[i].date == date && records[i].time == time {
          FirstMatchAt(records, date, time, i);
          return Some(i);
        }
        i := i + 1;
      }
      return None;
    }

    /** `add_draw`. */
    method AddDraw(d: StoredDraw)
      modifies this
      ensures records == old(records) + [d]
    {
      records := records + [d];
    }

    /** `update_draw` with new balls, bonus and source. */
    method UpdateDraw(i: nat, balls: seq<int>, bonus: string, source: string)
      requires i < |records|
      modifies this
      ensures records == old(records)[i := old(records)[i].(balls := balls, bonus := bonus, source := source)]
    {
      records := records[i := records[i].(balls := balls, bonus := bonus, source := source)];
    }
  }

  /** The first position holding the date and time is what FirstMatch finds. */
  lemma {:induction false} FirstMatchAt(records: seq<StoredDraw>, date: Date, time: Time, i: nat)
    requires i < |records| && records[i].date == date && records[i].time == time
    requires forall j :: 0 <= j < i ==> !(records[j].date == date && records[j].time == time)
    ensures FirstMatch(records, date, time) == Some(i)
  {
    if i > 0 {
      FirstMatchAt(records[1..], date, time, i - 1);
    }
  }
}
