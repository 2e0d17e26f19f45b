/** The results scraper (scraper.py). The results page is given as the data
    the scraper reads from it: the HTTP status, the strings of its `h2`
    headings, and every text node in document order with its chain of cards:
    the first `div` above the label's own element (`find_parent("div")`),
    then that element's parents of any tag (`card.parent`). A page dated by its "Tirages du ..." heading yields one draw
    per distinct time label ("13h", "19h", ...) whose card holds at least
    five digit balls and a one-letter bonus; a draw absent from the store is
    added, a pending one is completed, any other is left alone, and the
    matrices are rebuilt when something changed. */
module Scraper {
  import opened Wrappers
  import opened Text
  import opened Calendar
  import opened Store
  import Api
  import MatrixEngine

  const OkStatus := 200
  const HeaderMarker := "Tirages du"
  const HeaderPrefix := "Tirages du "
  /** The card and at most three of its ancestors are searched for balls. */
  const CardLevels := 4
  const MinBalls := 5

  /** The texts (`get_text(strip=True)`) of the `.bg-primary` and the
      `.bg-secondary` elements inside one card. */
  datatype Card = Card(primary: seq<string>, secondary: seq<string>)

  /** A text node and its card chain, innermost first: the first `div` above
      the label's own element, then the parents of that element whatever
      their tag; empty when there is no such `div`. */
  datatype TextNode = TextNode(text: string, chain: seq<Card>)

  datatype Page = Page(status: int, headings: seq<Option<string>>, strings: seq<TextNode>)

  // ---------------------------------------------------------------------
  // The date heading

  predicate Contains(s: string, pat: string) {
    exists i :: 0 <= i <= |s| - |pat| && OccursAt(s, pat, i)
  }

  /** `lambda t: t and "Tirages du" in t` on a heading's string. */
  predicate IsDateHeading(h: Option<string>) {
    h.Some? && h.value != [] && Contains(h.value, HeaderMarker)
  }

  /** `soup.find('h2', string=...)`: the first heading that qualifies. */
  function FindHeading(headings: seq<Option<string>>): (r: Option<nat>)
    ensures r.Some? ==> r.value < |headings| && IsDateHeading(headings[r.value])
    ensures r.Some? ==> forall j :: 0 <= j < r.value ==> !IsDateHeading(headings[j])
    ensures r.None? ==> forall j :: 0 <= j < |headings| ==> !IsDateHeading(headings[j])
  {
    if headings == [] then None
    else if IsDateHeading(headings[0]) then Some(0)
    else match FindHeading(headings[1..])
      case None => None
      case Some(k) => Some(k + 1)
  }

  const MonthNames: seq<string> := [
    "janvier", "f\U{E9}vrier", "mars", "avril", "mai", "juin", "juillet",
    "ao\U{FB}t", "septembre", "octobre", "novembre", "d\U{E9}cembre"]

  /** `months.get(name, 1)`: an unknown month name reads as January. */
  function MonthNumber(name: string): int {
    if name == "janvier" then 1
    else if name == "f\U{E9}vrier" then 2
    else if name == "mars" then 3
    else if name == "avril" then 4
    else if name == "mai" then 5
    else if name == "juin" then 6
    else if name == "juillet" then 7
    else if name == "ao\U{FB}t" then 8
    else if name == "septembre" then 9
    else if name == "octobre" then 10
    else if name == "novembre" then 11
    else if name == "d\U{E9}cembre" then 12
    else 1
  }

  /** The month table maps the m-th French month name to m, and anything
      else to 1. */
  lemma MonthTable(name: string)
    ensures forall i :: 0 <= i < |MonthNames| ==> MonthNumber(MonthNames[i]) == i + 1
    ensures name !in MonthNames ==> MonthNumber(name) == 1
    ensures 1 <= MonthNumber(name) <= 12
  {
  }

  /** The heading's text, stripped, without "Tirages du ", lower-cased and
      split into words; day from the second word, month from the third,
      year from the fourth. None where the source gives up (fewer than four
      words, a day or year that is not a number, an impossible date). */
  function ParseHeadingDate(heading: string): (r: Option<Date>)
    ensures r.Some? ==> ValidDate(r.value)
  {
    var dateText := ReplaceAll(Strip(heading), HeaderPrefix, "");
    var parts := Split(Lower(dateText));
    if |parts| < 4 then None
    else
      match (ParseInt(parts[1]), ParseInt(parts[3]))
      case (Some(day), Some(year)) =>
        var d := Date(year, MonthNumber(parts[2]), day);
        if ValidDate(d) then Some(d) else None
      case _ => None
  }

  predicate LowerFixed(s: string) {
    forall i :: 0 <= i < |s| ==> LowerChar(s[i]) == s[i]
  }

  /** The heading the page shows for a draw day. */
  function Heading(weekday: string, day: nat, month: string, year: nat): string {
    HeaderPrefix + JoinWords([weekday, NatToString(day), month, NatToString(year)])
  }

  lemma JoinFour(a: string, b: string, c: string, d: string)
    ensures JoinWords([a, b, c, d]) == a + " " + b + " " + c + " " + d
  {
    assert [a, b, c, d][1..] == [b, c, d];
    assert [b, c, d][1..] == [c, d];
    assert [c, d][1..] == [d];
    assert JoinWords([c, d]) == c + " " + d;
    assert JoinWords([b, c, d]) == b + " " + (c + " " + d);
    assert JoinWords([a, b, c, d]) == a + " " + (b + " " + (c + " " + d));
  }

  lemma DigitsLowerFixed(s: string)
    requires AllDigits(s)
    ensures LowerFixed(s) && forall i :: 0 <= i < |s| ==> !IsSpace(s[i])
  {
  }

  /** A lower-case heading "Tirages du <weekday> <day> <month> <year>" reads
      as that day of that year, in the month the table gives the month word
      (January for a word it does not know), when that date exists. */
  lemma ParseHeading(weekday: string, day: nat, month: string, year: nat)
    requires IsWord(weekday) && LowerFixed(weekday) && IsWord(month) && LowerFixed(month)
    ensures ParseHeadingDate(Heading(weekday, day, month, year)) ==
      (var d := Date(year, MonthNumber(month), day); if ValidDate(d) then Some(d) else None)
  {
    HeadingWords(weekday, day, month, year);
    ParseIntRoundTrip(day);
    ParseIntRoundTrip(year);
  }

  /** The heading's text, cleaned and split, gives back its four words. */
  lemma HeadingWords(weekday: string, day: nat, month: string, year: nat)
    requires IsWord(weekday) && LowerFixed(weekday) && IsWord(month) && LowerFixed(month)
    ensures Split(Lower(ReplaceAll(Strip(Heading(weekday, day, month, year)), HeaderPrefix, "")))
      == [weekday, NatToString(day), month, NatToString(year)]
  {
    var words := [weekday, NatToString(day), month, NatToString(year)];
    CleanHeading(weekday, day, month, year);
    SplitWords(words);
  }

  /** Stripping, dropping "Tirages du " and lower-casing leave the words
      joined by spaces. */
  lemma CleanHeading(weekday: string, day: nat, month: string, year: nat)
    requires IsWord(weekday) && LowerFixed(weekday) && IsWord(month) && LowerFixed(month)
    ensures Lower(ReplaceAll(Strip(Heading(weekday, day, month, year)), HeaderPrefix, ""))
      == JoinWords([weekday, NatToString(day), month, NatToString(year)])
  {
    var rest := JoinWords([weekday, NatToString(day), month, NatToString(year)]);
    HeadingText(weekday, NatToString(day), month, NatToString(year));
    DropPrefix(rest);
    LowerUnchanged(rest);
  }

  lemma SplitWords(words: seq<string>)
    requires |words| == 4 && IsWord(words[0]) && IsWord(words[2])
    requires IsDigitText(words[1]) && IsDigitText(words[3])
    ensures Split(JoinWords(words)) == words
  {
    DigitsLowerFixed(words[1]);
    DigitsLowerFixed(words[3]);
    assert forall i :: 0 <= i < |words| ==> IsWord(words[i]);
    SplitJoin(words);
  }

  lemma LowerUnchanged(s: string)
    requires LowerFixed(s)
    ensures Lower(s) == s
  {
  }

  /** The words of a heading join into lower-case text that strip() keeps. */
  lemma HeadingText(weekday: string, dayText: string, month: string, yearText: string)
    requires IsWord(weekday) && LowerFixed(weekday) && IsWord(month) && LowerFixed(month)
    requires IsDigitText(dayText) && IsDigitText(yearText)
    ensures var rest := JoinWords([weekday, dayText, month, yearText]);
      LowerFixed(rest) && Strip(HeaderPrefix + rest) == HeaderPrefix + rest
  {
    var rest := JoinWords([weekday, dayText, month, yearText]);
    JoinFour(weekday, dayText, month, yearText);
    DigitsLowerFixed(dayText);
    DigitsLowerFixed(yearText);
    var heading := HeaderPrefix + rest;
    assert heading[|heading| - 1] == yearText[|yearText| - 1];
    StripUnchanged(heading);
  }

  /** Removing "Tirages du " from the front of lower-case text. */
  lemma DropPrefix(rest: string)
    requires LowerFixed(rest)
    ensures ReplaceAll(HeaderPrefix + rest, HeaderPrefix, "") == rest
  {
    var heading := HeaderPrefix + rest;
    assert heading[..|HeaderPrefix|] == HeaderPrefix && heading[|HeaderPrefix|..] == rest;
    forall i | 0 <= i && i + |HeaderPrefix| <= |rest| ensures !OccursAt(rest, HeaderPrefix, i) {
      assert rest[i] != 'T' by {
        assert LowerChar(rest[i]) == rest[i];
      }
      assert rest[i..i + |HeaderPrefix|][0] == rest[i];
    }
    ReplaceAbsent(rest, HeaderPrefix, "");
  }

  /** The round trip: the heading of a real date reads back as that date. */
  lemma ParseHeadingRoundTrip(weekday: string, d: Date)
    requires ValidDate(d) && IsWord(weekday) && LowerFixed(weekday)
    ensures ParseHeadingDate(Heading(weekday, d.day, MonthNames[d.month - 1], d.year)) == Some(d)
  {
    var month := MonthNames[d.month - 1];
    MonthTable(month);
    ParseHeading(weekday, d.day, month, d.year);
  }

  // ---------------------------------------------------------------------
  // Time labels

  /** `re.search(r"^\d{1,2}h$", s)`: one or two digits and 'h', where `$`
      also matches before a final newline. */
  predicate IsTimeLabel(s: string) {
    var t := if |s| > 0 && s[|s| - 1] == '\n' then s[..|s| - 1] else s;
    (|t| == 2 || |t| == 3) && AllDigits(t[..|t| - 1]) && t[|t| - 1] == 'h'
  }

  /** `soup.find_all(string=...)`: the text nodes that are time labels, in
      document order. */
  function TimeNodes(strings: seq<TextNode>): (r: seq<TextNode>)
    ensures forall i :: 0 <= i < |r| ==> IsTimeLabel(r[i].text) && r[i] in strings
    ensures forall n :: n in strings && IsTimeLabel(n.text) ==> n in r
  {
    if strings == [] then []
    else
      var last := strings[|strings| - 1];
      TimeNodes(strings[..|strings| - 1]) + (if IsTimeLabel(last.text) then [last] else [])
  }

  /** `find_all` is a filter: it keeps document order and repeats. */
  lemma {:induction false} TimeNodesFilter(a: seq<TextNode>, b: seq<TextNode>)
    ensures TimeNodes(a + b) == TimeNodes(a) + TimeNodes(b)
  {
    if b == [] {
      assert a + b == a;
    } else {
      var init, last := b[..|b| - 1], b[|b| - 1];
      assert (a + b)[..|a + b| - 1] == a + init;
      calc {
        TimeNodes(a + b);
        TimeNodes(a + init) + (if IsTimeLabel(last.text) then [last] else []);
        { TimeNodesFilter(a, init); }
        TimeNodes(a) + TimeNodes(init) + (if IsTimeLabel(last.text) then [last] else []);
        TimeNodes(a) + (TimeNodes(init) + (if IsTimeLabel(last.text) then [last] else []));
      }
    }
  }

  /** A single text node is kept exactly when it is a time label. */
  lemma TimeNodesOne(n: TextNode)
    ensures TimeNodes([n]) == (if IsTimeLabel(n.text) then [n] else [])
  {
    assert [n][..0] == [];
  }

  /** The hour a stripped label stands for: `int(time_str.replace("h", ""))`. */
  function LabelHour(timeStr: string): Option<int> {
    ParseInt(ReplaceAll(timeStr, "h", ""))
  }

  lemma ReplaceDigitsH(d: string)
    requires (|d| == 1 || |d| == 2) && AllDigits(d)
    ensures ReplaceAll(d + "h", "h", "") == d
  {
    var s := d + "h";
    if |d| == 1 {
      assert s[1..] == "h";
      assert ReplaceAll("h", "h", "") == "" + ReplaceAll("h"[1..], "h", "");
    } else {
      assert s[1..] == [d[1]] + "h";
      assert s[1..][1..] == "h";
      assert ReplaceAll("h", "h", "") == "" + ReplaceAll("h"[1..], "h", "");
      assert ([d[1]] + "h")[..1] != "h";
    }
  }

  /** The value of the digits before the 'h' of a stripped label. */
  function LabelValue(s: string): nat {
    var t := Strip(s);
    if |t| >= 1 && AllDigits(t[..|t| - 1]) then DigitsValue(t[..|t| - 1]) else 0
  }

  /** A time label strips to its digits and 'h', and reads as the hour its
      digits spell, below 100. */
  lemma TimeLabelHour(s: string)
    requires IsTimeLabel(s)
    ensures var t := Strip(s);
      && (|t| == 2 || |t| == 3) && AllDigits(t[..|t| - 1]) && t[|t| - 1] == 'h'
      && LabelHour(t) == Some(LabelValue(s) as int)
      && LabelValue(s) < 100
  {
    var t := if |s| > 0 && s[|s| - 1] == '\n' then s[..|s| - 1] else s;
    var d := t[..|t| - 1];
    assert t == d + "h";
    StripLabel(s, t);
    LabelDigitsHour(d);
  }

  /** strip() removes the newline `$` lets through and nothing else. */
  lemma StripLabel(s: string, t: string)
    requires s == t || s == t + "\n"
    requires |t| >= 1 && !IsSpace(t[0]) && !IsSpace(t[|t| - 1])
    ensures Strip(s) == t
  {
    if s == t {
      StripUnchanged(s);
    } else {
      assert s[..|s| - 1] == t;
      StripUnchanged(t);
    }
  }

  lemma LabelDigitsHour(d: string)
    requires (|d| == 1 || |d| == 2) && AllDigits(d)
    ensures LabelHour(d + "h") == Some(DigitsValue(d) as int) && DigitsValue(d) < 100
  {
    ReplaceDigitsH(d);
    ParseIntDigits(d);
    if |d| == 2 {
      assert d[..1][..0] == [];
      assert DigitsValue(d[..1]) <= 9;
    } else {
      assert d[..0] == [];
    }
  }

  // ---------------------------------------------------------------------
  // The card chain

  /** `[t for t in texts if t.isdigit()]`. */
  function DigitTexts(texts: seq<string>): (r: seq<string>)
    ensures |r| <= |texts|
    ensures forall t :: t in r <==> t in texts && IsDigitText(t)
  {
    if texts == [] then []
    else
      var last := texts[|texts| - 1];
      DigitTexts(texts[..|texts| - 1]) + (if IsDigitText(last) then [last] else [])
  }

  /** The comprehension keeps the digit texts in order, repeats included. */
  lemma {:induction false} DigitTextsFilter(a: seq<string>, b: seq<string>)
    ensures DigitTexts(a + b) == DigitTexts(a) + DigitTexts(b)
  {
    if b == [] {
      assert a + b == a;
    } else {
      var init, last := b[..|b| - 1], b[|b| - 1];
      assert (a + b)[..|a + b| - 1] == a + init;
      calc {
        DigitTexts(a + b);
        DigitTexts(a + init) + (if IsDigitText(last) then [last] else []);
        { DigitTextsFilter(a, init); }
        DigitTexts(a) + DigitTexts(init) + (if IsDigitText(last) then [last] else []);
        DigitTexts(a) + (DigitTexts(init) + (if IsDigitText(last) then [last] else []));
      }
    }
  }

  /** A single text is kept exactly when it is all digits. */
  lemma DigitTextsOne(t: string)
    ensures DigitTexts([t]) == (if IsDigitText(t) then [t] else [])
  {
    assert [t][..0] == [];
  }

  /** `[int(x) for x in current_balls]`. */
  function BallValues(texts: seq<string>): (r: seq<int>)
    requires forall i :: 0 <= i < |texts| ==> IsDigitText(texts[i])
    ensures |r| == |texts|
    ensures forall i :: 0 <= i < |texts| ==> ParseInt(texts[i]) == Some(r[i]) && r[i] >= 0
  {
    var r := seq(|texts|, i requires 0 <= i < |texts| && IsDigitText(texts[i]) => DigitsValue(texts[i]) as int);
    forall i | 0 <= i < |texts| ensures ParseInt(texts[i]) == Some(r[i]) {
      ParseIntDigits(texts[i]);
    }
    r
  }

  predicate HoldsBalls(c: Card) {
    |DigitTexts(c.primary)| >= MinBalls
  }

  /** The first of the first four cards that holds at least five digit
      texts. */
  function BallCard(chain: seq<Card>): (k: Option<nat>)
    ensures k.Some? ==> k.value < CardLevels && k.value < |chain| && HoldsBalls(chain[k.value])
    ensures k.Some? ==> forall j :: 0 <= j < k.value ==> !HoldsBalls(chain[j])
    ensures k.None? ==> forall j :: 0 <= j < CardLevels && j < |chain| ==> !HoldsBalls(chain[j])
  {
    if |chain| > 0 && HoldsBalls(chain[0]) then Some(0)
    else if |chain| > 1 && HoldsBalls(chain[1]) then Some(1)
    else if |chain| > 2 && HoldsBalls(chain[2]) then Some(2)
    else if |chain| > 3 && HoldsBalls(chain[3]) then Some(3)
    else None
  }

  /** The bonus of a card: the first `.bg-secondary` text when it is a
      single letter. */
  function BonusOf(c: Card): (b: Option<string>)
    ensures b.Some? ==> c.secondary != [] && b.value == c.secondary[0] && |b.value| == 1 && IsAlphaChar(b.value[0])
    ensures b.None? ==> c.secondary == [] || |c.secondary[0]| != 1 || !IsAlphaChar(c.secondary[0][0])
  {
    if c.secondary != [] && |c.secondary[0]| == 1 && IsAlphaChar(c.secondary[0][0])
    then Some(c.secondary[0])
    else None
  }

  /** The balls and the bonus found around a time label. */
  datatype CardFind = CardFind(balls: seq<int>, bonus: Option<string>)

  /** The balls and bonus found around a time label: at least five
      non-negative balls read from the digit texts of the ball card, and its
      bonus; nothing without a ball card, and no bonus without balls. */
  function CardsResult(chain: seq<Card>): (r: CardFind)
    ensures r.balls != [] <==> BallCard(chain).Some?
    ensures r.balls != [] ==> |r.balls| >= MinBalls && forall i :: 0 <= i < |r.balls| ==> r.balls[i] >= 0
    ensures r.balls == [] ==> r.bonus == None
    ensures r.bonus.Some? ==> |r.bonus.value| == 1 && IsAlphaChar(r.bonus.value[0])
  {
    match BallCard(chain)
    case None => CardFind([], None)
    case Some(k) => CardFind(BallValues(DigitTexts(chain[k].primary)), BonusOf(chain[k]))
  }

  /** The card walk: up to four levels, stop at the first card with five
      digit balls and take its bonus if it has a good one. */
  method ReadCards(chain: seq<Card>) returns (balls: seq<int>, bonus: Option<string>)
    ensures CardFind(balls, bonus) == CardsResult(chain)
  {
    balls, bonus := [], None;
    var level := 0;
    while level < CardLevels && level < |chain|
      invariant level <= CardLevels
      invariant forall j :: 0 <= j < level && j < |chain| ==> !HoldsBalls(chain[j])
    {
      var card := chain[level];
      var foundBalls := card.primary;
      if foundBalls != [] {
        var currentBalls := DigitTexts(foundBalls);
        if |currentBalls| >= MinBalls {
          balls := BallValues(currentBalls);
          var foundBonus := card.secondary;
          if foundBonus != [] {
            var bonusText := foundBonus[0];
            if |bonusText| == 1 && IsAlphaChar(bonusText[0]) {
              bonus := Some(bonusText);
            }
          }
          return;
        }
      }
      level := level + 1;
    }
  }

  // ---------------------------------------------------------------------
  // One draw

  datatype Found = Found(hour: nat, time: Time, balls: seq<int>, bonus: string)

  /** What one time label yields, or None when it yields no draw: no ball
      card or no bonus, or an hour that `strptime("%H:%M")` refuses. */
  function NodeDraw(node: TextNode): (r: Option<Found>)
    ensures r.Some? ==> r.value.hour <= 23 && r.value.time == Time(r.value.hour, 0, 0)
    ensures r.Some? ==> |r.value.balls| >= MinBalls && |r.value.bonus| == 1
  {
    var cards := CardsResult(node.chain);
    if cards.balls == [] || cards.bonus.None? then None
    else
      match LabelHour(Strip(node.text))
      case None => None
      case Some(hour) =>
        if hour < 0 then None
        else
          ParseWholeHour(hour);
          match HourTime(hour)
          case None => None
          case Some(t) => Some(Found(hour, t, cards.balls, cards.bonus.value))
  }

  /** `datetime.strptime(f"{hour}:00", "%H:%M").time()`. */
  function HourTime(hour: nat): Option<Time> {
    ParseHourMinute(NatToString(hour) + ":00")
  }

  /** A time label yields a draw exactly when its cards give balls and a
      bonus and its hour is one of the day's; the draw is on the hour. */
  lemma NodeDrawFacts(node: TextNode)
    requires IsTimeLabel(node.text)
    ensures var hour := LabelValue(node.text);
      var cards := CardsResult(node.chain);
      && (NodeDraw(node).Some? <==> cards.balls != [] && cards.bonus.Some? && hour <= 23)
      && (NodeDraw(node).Some? ==>
           NodeDraw(node).value == Found(hour, Time(hour, 0, 0), cards.balls, cards.bonus.value))
  {
    TimeLabelHour(node.text);
    var hour := LabelValue(node.text);
    ParseWholeHour(hour);
    var cards := CardsResult(node.chain);
    if cards.balls != [] && cards.bonus.Some? {
      assert NodeDraw(node) == (if hour <= 23 then Some(Found(hour, Time(hour, 0, 0), cards.balls, cards.bonus.value)) else None);
    }
  }

  /** `f"{date:%Y%m%d}{hour:02d}"`. */
  function DrawIdText(date: Date, hour: nat): string
    requires ValidDate(date) && hour < 100
  {
    Pad4(date.year) + Pad2(date.month) + Pad2(date.day) + Pad2(hour)
  }

  /** `int(f"{date:%Y%m%d}{hour:02d}")`. */
  function DrawId(date: Date, hour: nat): (id: int)
    requires ValidDate(date) && hour < 100
    ensures id == ((date.year * 100 + date.month) * 100 + date.day) * 100 + hour
  {
    DrawIdTextValue(date, hour);
    ParseInt(DrawIdText(date, hour)).value
  }

  /** The id text reads as year, month, day and hour in base 100 digits. */
  lemma DrawIdTextValue(date: Date, hour: nat)
    requires ValidDate(date) && hour < 100
    ensures ParseInt(DrawIdText(date, hour)) == Some(((date.year * 100 + date.month) * 100 + date.day) * 100 + hour)
  {
    DigitsBase100(Pad4(date.year), Pad2(date.month), Pad2(date.day), Pad2(hour));
  }

  /** Digits followed by three two-digit groups read as base-100 digits. */
  lemma DigitsBase100(y: string, m: string, d: string, h: string)
    requires |y| > 0 && AllDigits(y) && |m| == 2 && AllDigits(m) && |d| == 2 && AllDigits(d) && |h| == 2 && AllDigits(h)
    ensures ParseInt(y + m + d + h) == Some(((DigitsValue(y) * 100 + DigitsValue(m)) * 100 + DigitsValue(d)) * 100 + DigitsValue(h))
  {
    Base100Value(y, m, d, h);
    ParseIntDigits(y + m + d + h);
  }

  lemma Base100Value(y: string, m: string, d: string, h: string)
    requires |y| > 0 && AllDigits(y) && |m| == 2 && AllDigits(m) && |d| == 2 && AllDigits(d) && |h| == 2 && AllDigits(h)
    ensures IsDigitText(y + m + d + h)
    ensures DigitsValue(y + m + d + h) == ((DigitsValue(y) * 100 + DigitsValue(m)) * 100 + DigitsValue(d)) * 100 + DigitsValue(h)
  {
    AppendTwoDigits(y, m);
    AppendTwoDigits(y + m, d);
    AppendTwoDigits(y + m + d, h);
  }

  lemma AppendTwoDigits(a: string, b: string)
    requires AllDigits(a) && |b| == 2 && AllDigits(b)
    ensures AllDigits(a + b) && DigitsValue(a + b) == DigitsValue(a) * 100 + DigitsValue(b)
  {
    DigitsValueConcat(a, b);
    assert Pow10(2) == 100;
  }

  /** Two draws at different slots get different ids. */
  lemma DrawIdInjective(d1: Date, h1: nat, d2: Date, h2: nat)
    requires ValidDate(d1) && h1 < 100 && ValidDate(d2) && h2 < 100
    requires DrawId(d1, h1) == DrawId(d2, h2)
    ensures d1 == d2 && h1 == h2
  {
    var k1, k2 := d1.year * 100 + d1.month, d2.year * 100 + d2.month;
    Base100(k1 * 100 + d1.day, h1, k2 * 100 + d2.day, h2);
    Base100(k1, d1.day, k2, d2.day);
    Base100(d1.year, d1.month, d2.year, d2.month);
  }

  lemma Base100(a: int, b: nat, c: int, d: nat)
    requires b < 100 && d < 100 && a * 100 + b == c * 100 + d
    ensures a == c && b == d
  {
  }

  /** The record added for a new draw: its id, the day of the page, the
      label's time, source 'scrape', and a prediction payload holding the
      two predictors' results under their own keys (no `numbers` key). */
  function NewRecord(date: Date, f: Found): StoredDraw
    requires ValidDate(date) && f.hour < 100
  {
    StoredDraw(DrawId(date, f.hour), date, f.time, f.balls, f.bonus, ScrapeSource, Some(Payload(None)))
  }

  /** The store after a step and whether the step changed it. */
  datatype Stored = Stored(records: seq<StoredDraw>, added: bool)

  /** Storing one found draw: add it when no record has its date and time,
      complete the record when it is pending, otherwise leave the store
      alone. */
  function StoreFound(records: seq<StoredDraw>, date: Date, f: Found): Stored
    requires ValidDate(date) && f.hour < 100
  {
    match FirstMatch(records, date, f.time)
    case None => Stored(records + [NewRecord(date, f)], true)
    case Some(i) =>
      if records[i].source == PendingSource
      then Stored(records[i := records[i].(balls := f.balls, bonus := f.bonus, source := ScrapeSource)], true)
      else Stored(records, false)
  }

  // ---------------------------------------------------------------------
  // The page

  /** The stripped labels of some text nodes. */
  function LabelSet(nodes: seq<TextNode>): set<string> {
    if nodes == [] then {}
    else LabelSet(nodes[..|nodes| - 1]) + {Strip(nodes[|nodes| - 1].text)}
  }

  lemma LabelSetStep(nodes: seq<TextNode>, k: nat)
    requires k < |nodes|
    ensures LabelSet(nodes[..k + 1]) == LabelSet(nodes[..k]) + {Strip(nodes[k].text)}
  {
    assert nodes[..k + 1][..k] == nodes[..k];
  }

  /** The draw a node contributes after the nodes before it: none when its
      label was seen already. */
  function FreshDraw(prefix: seq<TextNode>, node: TextNode): Option<Found> {
    if Strip(node.text) in LabelSet(prefix) then None else NodeDraw(node)
  }

  /** The time labels processed in order, each label only the first time it
      appears. */
  function StoreNodes(records: seq<StoredDraw>, date: Date, nodes: seq<TextNode>): Stored
    requires ValidDate(date)
  {
    if nodes == [] then Stored(records, false)
    else
      var before := StoreNodes(records, date, nodes[..|nodes| - 1]);
      match FreshDraw(nodes[..|nodes| - 1], nodes[|nodes| - 1])
      case None => before
      case Some(f) =>
        var step := StoreFound(before.records, date, f);
        Stored(step.records, before.added || step.added)
  }

  lemma StoreNodesStep(records: seq<StoredDraw>, date: Date, nodes: seq<TextNode>, k: nat)
    requires ValidDate(date) && k < |nodes|
    ensures var before := StoreNodes(records, date, nodes[..k]);
      StoreNodes(records, date, nodes[..k + 1]) ==
        match FreshDraw(nodes[..k], nodes[k])
        case None => before
        case Some(f) => Stored(StoreFound(before.records, date, f).records, before.added || StoreFound(before.records, date, f).added)
  {
    assert nodes[..k + 1][..k] == nodes[..k];
  }

  /** The whole scrape: nothing without an OK status, a date heading and a
      readable date; otherwise the page's time labels are stored. */
  function Scrape(records: seq<StoredDraw>, page: Page): Stored {
    if page.status != OkStatus then Stored(records, false)
    else match FindHeading(page.headings)
      case None => Stored(records, false)
      case Some(k) =>
        match ParseHeadingDate(page.headings[k].value)
        case None => Stored(records, false)
        case Some(date) => StoreNodes(records, date, TimeNodes(page.strings))
  }

  /** The body of the loop for a label not seen before: the card walk,
      then the hour, then the time; None where the source moves on. */
  method ReadNode(node: TextNode, timeStr: string) returns (f: Option<Found>)
    requires timeStr == Strip(node.text)
    ensures f == NodeDraw(node)
  {
    var balls, bonus := ReadCards(node.chain);
    if balls == [] || bonus.None? {
      return None;
    }
    var hour := LabelHour(timeStr);
    if hour.None? || hour.value < 0 {
      return None;
    }
    var drawTime := HourTime(hour.value);
    if drawTime.None? {
      return None;
    }
    return Some(Found(hour.value, drawTime.value, balls, bonus.value));
  }

  /** Look the slot up; add the draw, complete a pending record, or leave
      the store alone. */
  method StoreDraw(store: DrawStore, date: Date, f: Found) returns (changed: bool)
    requires ValidDate(date) && f.hour < 100
    modifies store
    ensures Stored(store.records, changed) == StoreFound(old(store.records), date, f)
  {
    changed := false;
    var existing := store.FindByDateTime(date, f.time);
    if existing.None? {
      store.AddDraw(NewRecord(date, f));
      changed := true;
    } else if store.records[existing.value].source == PendingSource {
      store.UpdateDraw(existing.value, f.balls, f.bonus, ScrapeSource);
      changed := true;
    }
  }

  /** The loop over the time labels, with the set of labels seen. */
  method StoreLabels(store: DrawStore, date: Date, nodes: seq<TextNode>) returns (latestAdded: bool)
    requires ValidDate(date)
    modifies store
    ensures Stored(store.records, latestAdded) == StoreNodes(old(store.records), date, nodes)
  {
    latestAdded := false;
    var seenTimes: set<string> := {};
    for k := 0 to |nodes|
      invariant seenTimes == LabelSet(nodes[..k])
      invariant Stored(store.records, latestAdded) == StoreNodes(old(store.records), date, nodes[..k])
    {
      var node := nodes[k];
      var timeStr := Strip(node.text);
      LabelSetStep(nodes, k);
      StoreNodesStep(old(store.records), date, nodes, k);
      if timeStr in seenTimes {
        continue;
      }
      seenTimes := seenTimes + {timeStr};
      var found := ReadNode(node, timeStr);
      if found.Some? {
        var changed := StoreDraw(store, date, found.value);
        latestAdded := latestAdded || changed;
      }
    }
    assert nodes[..|nodes|] == nodes;
  }

  /** `fetch_and_store_latest`: the store becomes what Scrape gives and the
      result is its flag; when the flag is set the matrices are rebuilt
      from the settled log in date and time order (`get_all_draws_sorted`),
      otherwise the cache is untouched. */
  method FetchAndStoreLatest(store: DrawStore, cache: MatrixEngine.MatrixCache, page: Page) returns (latestAdded: bool)
    requires cache.Valid()
    modifies store, cache
    ensures Stored(store.records, latestAdded) == Scrape(old(store.records), page)
    ensures latestAdded ==> cache.Valid() && cache.built == SettledByDateTime(store.records)
    ensures !latestAdded ==> unchanged(cache)
  {
    if page.status != OkStatus {
      return false;
    }
    var heading := FindHeading(page.headings);
    if heading.None? {
      return false;
    }
    var scrapedDate := ParseHeadingDate(page.headings[heading.value].value);
    if scrapedDate.None? {
      return false;
    }
    var allTags := TimeNodes(page.strings);
    latestAdded := StoreLabels(store, scrapedDate.value, allTags);
    if latestAdded {
      cache.BuildMatrices(SettledByDateTime(store.records));
    }
  }

  // ---------------------------------------------------------------------
  // Properties of a scrape

  /** Records keyed by their slot: no two share a date and a time. */
  predicate UniqueSlots(records: seq<StoredDraw>) {
    forall i, j :: 0 <= i < j < |records| ==>
      !(records[i].date == records[j].date && records[i].time == records[j].time)
  }

  /** How a scrape may change the store: records are only appended, a
      record that was not pending is left exactly as it was, a pending one
      is at most completed (same id, slot and prediction, source 'scrape'),
      and every appended record is a scraped draw of that day on the hour
      with at least five balls, its id the slot's. */
  predicate Evolves(old_: seq<StoredDraw>, new_: seq<StoredDraw>, date: Date) {
    && |new_| >= |old_|
    && (forall i :: 0 <= i < |old_| && old_[i].source != PendingSource ==> new_[i] == old_[i])
    && (forall i :: 0 <= i < |old_| && old_[i].source == PendingSource ==>
          new_[i] == old_[i] ||
          new_[i] == old_[i].(balls := new_[i].balls, bonus := new_[i].bonus, source := ScrapeSource))
    && (forall i :: |old_| <= i < |new_| ==>
          && new_[i].source == ScrapeSource && new_[i].date == date
          && new_[i].time.minute == 0 && new_[i].time.second == 0 && 0 <= new_[i].time.hour <= 23
          && |new_[i].balls| >= MinBalls
          && ValidDate(date) && new_[i].drawId == DrawId(date, new_[i].time.hour))
  }

  lemma EvolvesTrans(a: seq<StoredDraw>, b: seq<StoredDraw>, c: seq<StoredDraw>, date: Date)
    requires Evolves(a, b, date) && Evolves(b, c, date)
    ensures Evolves(a, c, date)
  {
    forall i | 0 <= i < |a| && a[i].source == PendingSource
      ensures c[i] == a[i] || c[i] == a[i].(balls := c[i].balls, bonus := c[i].bonus, source := ScrapeSource)
    {
      if b[i] != a[i] {
        assert b[i].source == ScrapeSource;
      }
    }
  }

  /** Pending records count: a completed pending record is one fewer. */
  lemma {:induction false} PendingCountUpdate(records: seq<StoredDraw>, i: nat, r: StoredDraw)
    requires i < |records| && records[i].source == PendingSource && r.source != PendingSource
    ensures PendingCount(records[i := r]) == PendingCount(records) - 1
  {
    var n := |records| - 1;
    var s := records[i := r];
    if i < n {
      assert s[..n] == records[..n][i := r];
      PendingCountUpdate(records[..n], i, r);
    } else {
      assert s[..n] == records[..n];
    }
  }

  /** What a step does to the store: it evolves as above, and the flag is
      set exactly when the store grew or lost a pending record. */
  predicate StepFacts(records: seq<StoredDraw>, step: Stored, date: Date) {
    && Evolves(records, step.records, date)
    && PendingCount(step.records) <= PendingCount(records)
    && (step.added <==> |step.records| > |records| || PendingCount(step.records) < PendingCount(records))
    && (!step.added ==> step.records == records)
  }

  /** One stored draw of the day, on the hour. */
  lemma StoreFoundFacts(records: seq<StoredDraw>, date: Date, f: Found)
    requires ValidDate(date) && f.hour <= 23 && f.time == Time(f.hour, 0, 0) && |f.balls| >= MinBalls
    ensures StepFacts(records, StoreFound(records, date, f), date)
  {
    match FirstMatch(records, date, f.time)
    case None =>
      AppendFacts(records, date, f);
    case Some(i) =>
      if records[i].source == PendingSource {
        CompleteFacts(records, date, i, f.balls, f.bonus);
      }
  }

  lemma AppendFacts(records: seq<StoredDraw>, date: Date, f: Found)
    requires ValidDate(date) && f.hour <= 23 && f.time == Time(f.hour, 0, 0) && |f.balls| >= MinBalls
    ensures StepFacts(records, Stored(records + [NewRecord(date, f)], true), date)
  {
    var r := records + [NewRecord(date, f)];
    assert r[..|records|] == records;
    assert r[|records|] == NewRecord(date, f);
  }

  lemma CompleteFacts(records: seq<StoredDraw>, date: Date, i: nat, balls: seq<int>, bonus: string)
    requires i < |records| && records[i].source == PendingSource
    ensures StepFacts(records, Stored(records[i := records[i].(balls := balls, bonus := bonus, source := ScrapeSource)], true), date)
  {
    var r := records[i := records[i].(balls := balls, bonus := bonus, source := ScrapeSource)];
    PendingCountUpdate(records, i, r[i]);
  }

  /** A step keeps slots unique: it adds a record only when no record has
      its slot, and a completion keeps the slot. */
  lemma StoreFoundUnique(records: seq<StoredDraw>, date: Date, f: Found)
    requires ValidDate(date) && f.hour < 100 && UniqueSlots(records)
    ensures UniqueSlots(StoreFound(records, date, f).records)
  {
    var r := StoreFound(records, date, f).records;
    match FirstMatch(records, date, f.time)
    case None =>
      assert r[|records|] == NewRecord(date, f);
      assert forall i :: 0 <= i < |records| ==> r[i] == records[i];
    case Some(i) =>
  }

  /** Two steps in a row combine into one. */
  lemma StepFactsTrans(a: seq<StoredDraw>, b: Stored, c: Stored, date: Date)
    requires StepFacts(a, b, date) && StepFacts(b.records, c, date)
    ensures StepFacts(a, Stored(c.records, b.added || c.added), date)
  {
    EvolvesTrans(a, b.records, c.records, date);
  }

  /** The labels processed: the same holds for the whole loop, and slots
      stay unique. */
  lemma {:induction false} StoreNodesFacts(records: seq<StoredDraw>, date: Date, nodes: seq<TextNode>)
    requires ValidDate(date)
    requires forall i :: 0 <= i < |nodes| ==> IsTimeLabel(nodes[i].text)
    ensures StepFacts(records, StoreNodes(records, date, nodes), date)
    ensures UniqueSlots(records) ==> UniqueSlots(StoreNodes(records, date, nodes).records)
  {
    if nodes == [] {
      return;
    }
    var prefix, node := nodes[..|nodes| - 1], nodes[|nodes| - 1];
    StoreNodesFacts(records, date, prefix);
    var before := StoreNodes(records, date, prefix);
    match FreshDraw(prefix, node)
    case None =>
    case Some(f) =>
      NodeDrawFacts(node);
      StoreFoundFacts(before.records, date, f);
      StepFactsTrans(records, before, StoreFound(before.records, date, f), date);
      if UniqueSlots(records) {
        StoreFoundUnique(before.records, date, f);
      }
  }

  /** `fetch_and_store_latest` returns True exactly when it changed the
      store; whatever it does, records are only appended or completed, the
      records that were not pending stay as they were, no pending record is
      added, and slots stay unique. */
  lemma ScrapeOutcome(records: seq<StoredDraw>, page: Page)
    ensures var out := Scrape(records, page);
      && (out.added <==> out.records != records)
      && PendingCount(out.records) <= PendingCount(records)
      && |out.records| >= |records|
      && (forall i :: 0 <= i < |records| && records[i].source != PendingSource ==> out.records[i] == records[i])
      && (UniqueSlots(records) ==> UniqueSlots(out.records))
  {
    if page.status == OkStatus && FindHeading(page.headings).Some? {
      var k := FindHeading(page.headings).value;
      var date := ParseHeadingDate(page.headings[k].value);
      if date.Some? {
        StoreNodesFacts(records, date.value, TimeNodes(page.strings));
      }
    }
  }

  /** A scraped record carries no `numbers` in its prediction, so the
      history view shows it with no matches and no gain. */
  lemma ScrapedRecordNoGain(date: Date, f: Found)
    requires ValidDate(date) && f.hour < 100
    ensures Api.PredictedNumbers(NewRecord(date, f)) == []
    ensures Api.CalculateGain(f.balls, Api.PredictedNumbers(NewRecord(date, f))) == 0.0
  {
  }
}
