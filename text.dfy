/** The text primitives the Python code leans on, stated as Python defines
    them for the characters modelled here: `int(str)`, `str.strip()`,
    `str.split()`, `str.lower()`, `str.replace()`, `str.isdigit()`,
    `str.isalpha()` and decimal rendering (`str(n)`, `f"{n:02d}"`). */
module Text {
  import opened Wrappers

  predicate IsDigit(c: char) {
    '0' <= c <= '9'
  }

  predicate AllDigits(s: string) {
    forall i :: 0 <= i < |s| ==> IsDigit(s[i])
  }

  /** `str.isdigit()`: non-empty and every character a digit. */
  predicate IsDigitText(s: string) {
    |s| > 0 && AllDigits(s)
  }

  /** `str.isalpha()` on the Latin letters modelled here (ASCII and Latin-1). */
  predicate IsAlphaChar(c: char) {
    ('A' <= c <= 'Z') || ('a' <= c <= 'z') || c == '\U{AA}' || c == '\U{B5}' || c == '\U{BA}'
    || ('\U{C0}' <= c <= '\U{FF}' && c != '\U{D7}' && c != '\U{F7}')
  }

  /** Python's whitespace characters (`str.isspace()`). */
  predicate IsSpace(c: char) {
    c == ' ' || ('\t' <= c <= '\r') || ('\U{1C}' <= c <= '\U{1F}') || c == '\U{85}' || c == '\U{A0}'
    || c == '\U{1680}' || ('\U{2000}' <= c <= '\U{200A}') || c == '\U{2028}' || c == '\U{2029}'
    || c == '\U{202F}' || c == '\U{205F}' || c == '\U{3000}'
  }

  function DigitValue(c: char): nat
    requires IsDigit(c)
  {
    (c as int) - ('0' as int)
  }

  function DigitChar(d: nat): (c: char)
    requires d < 10
    ensures IsDigit(c) && DigitValue(c) == d
  {
    (('0' as int) + d) as char
  }

  /** Value of a decimal digit string, read left to right. */
  function DigitsValue(s: string): nat
    requires AllDigits(s)
  {
    if s == [] then 0 else DigitsValue(s[..|s| - 1]) * 10 + DigitValue(s[|s| - 1])
  }

  function Pow10(k: nat): nat {
    if k == 0 then 1 else 10 * Pow10(k - 1)
  }

  /** Reading a concatenation shifts the left part by the right part's length. */
  lemma {:induction false} DigitsValueConcat(a: string, b: string)
    requires AllDigits(a) && AllDigits(b)
    ensures AllDigits(a + b)
    ensures DigitsValue(a + b) == DigitsValue(a) * Pow10(|b|) + DigitsValue(b)
    decreases |b|
  {
    if b == [] {
      assert a + b == a;
    } else {
      var b' := b[..|b| - 1];
      var d := DigitValue(b[|b| - 1]);
      assert (a + b)[..|a + b| - 1] == a + b';
      assert DigitsValue(a + b) == DigitsValue(a + b') * 10 + d;
      assert DigitsValue(b) == DigitsValue(b') * 10 + d;
      DigitsValueConcat(a, b');
      ShiftStep(DigitsValue(a), Pow10(|b'|), DigitsValue(b'), d);
    }
  }

  lemma ShiftStep(x: nat, p: nat, y: nat, d: nat)
    ensures (x * p + y) * 10 + d == x * (10 * p) + (y * 10 + d)
  {
  }

  /** `str(n)` for a natural number: decimal, no leading zeros. */
  function NatToString(n: nat): (r: string)
    ensures IsDigitText(r)
    ensures |r| == 1 || r[0] != '0'
  {
    if n < 10 then [DigitChar(n)] else NatToString(n / 10) + [DigitChar(n % 10)]
  }

  /** Reading back the rendering of n gives n. */
  lemma {:induction false} NatToStringValue(n: nat)
    ensures DigitsValue(NatToString(n)) == n
  {
    if n >= 10 {
      var s := NatToString(n);
      assert s[..|s| - 1] == NatToString(n / 10);
      NatToStringValue(n / 10);
    }
  }

  /** `f"{n:02d}"` (and strftime's `%m`, `%d`, `%H`) for n < 100. */
  function Pad2(n: nat): (r: string)
    requires n < 100
    ensures |r| == 2 && AllDigits(r) && DigitsValue(r) == n
  {
    var r := [DigitChar(n / 10), DigitChar(n % 10)];
    assert r[..1] == [DigitChar(n / 10)] && r[..1][..0] == [];
    assert DigitsValue(r[..1]) == n / 10;
    r
  }

  /** `str(n)` for any integer. */
  function IntToString(n: int): string {
    if n < 0 then "-" + NatToString(-n) else NatToString(n)
  }

  // ---------------------------------------------------------------- strip

  /** What is left of s once its leading whitespace is skipped. */
  function StripLeft(s: string): (r: string)
    ensures |r| <= |s|
    ensures r == [] || !IsSpace(r[0])
  {
    if s != [] && IsSpace(s[0]) then StripLeft(s[1..]) else s
  }

  /** Where strip() starts cutting the kept part: the number of whitespace
      characters s starts with. */
  function StripOffset(s: string): (n: nat)
    ensures n <= |s|
  {
    if s != [] && IsSpace(s[0]) then 1 + StripOffset(s[1..]) else 0
  }

  /** `str.strip()`: whitespace is cut from the front, then from the back. */
  function Strip(s: string): (r: string)
    ensures |r| <= |s|
  {
    if s != [] && IsSpace(s[0]) then Strip(s[1..])
    else if s != [] && IsSpace(s[|s| - 1]) then Strip(s[..|s| - 1])
    else s
  }

  /** r is the slice of s starting at i with no whitespace at either end,
      and everything around it is whitespace. */
  predicate Keeps(s: string, r: string, i: nat) {
    && i + |r| <= |s| && r == s[i..i + |r|]
    && (forall k :: 0 <= k < i ==> IsSpace(s[k]))
    && (forall k :: i + |r| <= k < |s| ==> IsSpace(s[k]))
    && (r == [] || (!IsSpace(r[0]) && !IsSpace(r[|r| - 1])))
  }

  /** strip() keeps the middle slice of s that has no whitespace at either
      end, and everything it cuts off is whitespace. */
  lemma {:induction false} StripSpec(s: string)
    ensures Keeps(s, Strip(s), StripOffset(s))
  {
    if s != [] && IsSpace(s[0]) {
      StripSpec(s[1..]);
      KeepsFront(s, Strip(s[1..]), StripOffset(s[1..]));
    } else if s != [] && IsSpace(s[|s| - 1]) {
      StripSpec(s[..|s| - 1]);
      assert StripOffset(s[..|s| - 1]) == 0;
      KeepsBack(s, Strip(s[..|s| - 1]));
    } else {
      assert s[0..|s|] == s;
    }
  }

  lemma KeepsFront(s: string, r: string, i: nat)
    requires s != [] && IsSpace(s[0]) && Keeps(s[1..], r, i)
    ensures Keeps(s, r, i + 1)
  {
    assert forall k :: 1 <= k < |s| ==> s[1..][k - 1] == s[k];
  }

  lemma KeepsBack(s: string, r: string)
    requires s != [] && IsSpace(s[|s| - 1]) && Keeps(s[..|s| - 1], r, 0)
    ensures Keeps(s, r, 0)
  {
    assert forall k :: 0 <= k < |s| - 1 ==> s[..|s| - 1][k] == s[k];
  }

  /** A string with no whitespace at its ends is left alone by strip(). */
  lemma StripUnchanged(s: string)
    requires s == [] || (!IsSpace(s[0]) && !IsSpace(s[|s| - 1]))
    ensures Strip(s) == s
  {
  }

  // ---------------------------------------------------------------- int()

  /** What follows the first digit of an integer literal, given the value
      `acc` read so far: more digits, each optionally preceded by a single
      underscore (PEP 515 grouping); anything else, or an underscore at the
      end, is a ValueError (None). */
  function ReadGrouped(s: string, acc: nat): Option<nat>
    decreases |s|
  {
    if s == [] then Some(acc)
    else if IsDigit(s[0]) then ReadGrouped(s[1..], acc * 10 + DigitValue(s[0]))
    else if s[0] == '_' && |s| > 1 && IsDigit(s[1]) then ReadGrouped(s[2..], acc * 10 + DigitValue(s[1]))
    else None
  }

  /** An unsigned integer literal: a digit, then the grouped rest. */
  function GroupedValue(s: string): Option<nat> {
    if s != [] && IsDigit(s[0]) then ReadGrouped(s[1..], DigitValue(s[0])) else None
  }

  /** Plain digits after `acc` read as acc shifted by their count plus
      their own value. */
  lemma {:induction false} ReadDigits(d: string, acc: nat)
    requires AllDigits(d)
    ensures ReadGrouped(d, acc) == Some(acc * Pow10(|d|) + DigitsValue(d))
    decreases |d|
  {
    if d != [] {
      var v := DigitValue(d[0]);
      ReadDigits(d[1..], acc * 10 + v);
      FirstDigit(d);
      ShiftFirst(acc, v, Pow10(|d| - 1), DigitsValue(d[1..]));
    }
  }

  /** The value of a digit string splits at its first digit. */
  lemma FirstDigit(d: string)
    requires |d| > 0 && AllDigits(d)
    ensures DigitsValue(d) == DigitValue(d[0]) * Pow10(|d| - 1) + DigitsValue(d[1..])
  {
    var c, rest := [d[0]], d[1..];
    DigitsValueConcat(c, rest);
    assert c + rest == d;
    assert c[..0] == [];
    var v := DigitsValue(c);
    assert v == DigitValue(d[0]);
    assert DigitsValue(d) == v * Pow10(|rest|) + DigitsValue(rest);
  }

  lemma ShiftFirst(acc: nat, v: nat, p: nat, r: nat)
    ensures (acc * 10 + v) * p + r == acc * (10 * p) + (v * p + r)
  {
  }

  /** A plain digit string reads as its decimal value. */
  lemma GroupedDigits(d: string)
    requires IsDigitText(d)
    ensures GroupedValue(d) == Some(DigitsValue(d))
  {
    ReadDigits(d[1..], DigitValue(d[0]));
    FirstDigit(d);
  }

  /** Python's `int(s)` in base 10: surrounding whitespace, an optional sign,
      then digits (underscores allowed between digits); anything else is a
      ValueError, modelled as None. */
  function ParseInt(s: string): Option<int> {
    var t := Strip(s);
    if |t| > 0 && (t[0] == '-' || t[0] == '+') then
      match GroupedValue(t[1..])
      case None => None
      case Some(v) =>
        var x: int := if t[0] == '-' then 0 - v else v;
        Some(x)
    else
      match GroupedValue(t)
      case None => None
      case Some(v) => Some(v)
  }

  /** `int(str(n)) == n`. */
  lemma ParseIntRoundTrip(n: int)
    ensures ParseInt(IntToString(n)) == Some(n)
  {
    if n >= 0 {
      ParseIntDigits(NatToString(n));
      NatToStringValue(n);
    } else {
      ParseIntNegative(NatToString(-n));
      NatToStringValue(-n);
    }
  }

  /** int() of a minus sign followed by digits is the negated value. */
  lemma ParseIntNegative(d: string)
    requires IsDigitText(d)
    ensures ParseInt("-" + d) == Some(0 - DigitsValue(d))
  {
    SignedDigits(d);
    GroupedDigits(d);
  }

  lemma SignedDigits(d: string)
    requires IsDigitText(d)
    ensures var s := "-" + d; Strip(s) == s && |s| > 1 && s[0] == '-' && s[1..] == d
  {
    var s := "-" + d;
    assert s[|s| - 1] == d[|d| - 1];
    StripUnchanged(s);
    assert s[1..] == d;
  }

  /** int() of a plain digit string is its decimal value. */
  lemma ParseIntDigits(s: string)
    requires IsDigitText(s)
    ensures ParseInt(s) == Some(DigitsValue(s))
  {
    GroupedDigits(s);
    StripUnchanged(s);
    assert !(s[0] == '-' || s[0] == '+');
  }

  // ---------------------------------------------------------------- split()

  function IndexOfSpace(s: string): (k: nat)
    ensures k <= |s|
    ensures forall i :: 0 <= i < k ==> !IsSpace(s[i])
    ensures k < |s| ==> IsSpace(s[k])
    ensures s != [] && !IsSpace(s[0]) ==> k >= 1
  {
    if s == [] || IsSpace(s[0]) then 0 else 1 + IndexOfSpace(s[1..])
  }

  predicate IsWord(w: string) {
    |w| > 0 && forall i :: 0 <= i < |w| ==> !IsSpace(w[i])
  }

  /** `str.split()` without arguments: the maximal runs of non-whitespace. */
  function Split(s: string): (words: seq<string>)
    ensures forall i :: 0 <= i < |words| ==> IsWord(words[i])
    decreases |s|
  {
    var t := StripLeft(s);
    if t == [] then []
    else
      var k := IndexOfSpace(t);
      FirstWord(t);
      var rest := Split(t[k..]);
      PrependWord(t[..k], rest);
      [t[..k]] + rest
  }

  /** The run before the first whitespace of a string that starts with a
      non-space is a word. */
  lemma FirstWord(t: string)
    requires t != [] && !IsSpace(t[0])
    ensures 1 <= IndexOfSpace(t) <= |t| && IsWord(t[..IndexOfSpace(t)])
  {
  }

  lemma PrependWord(w: string, rest: seq<string>)
    requires IsWord(w) && forall i :: 0 <= i < |rest| ==> IsWord(rest[i])
    ensures forall i :: 0 <= i < |[w] + rest| ==> IsWord(([w] + rest)[i])
  {
  }

  /** Words joined by single spaces. */
  function JoinWords(words: seq<string>): string {
    if words == [] then ""
    else if |words| == 1 then words[0]
    else words[0] + (" " + JoinWords(words[1..]))
  }

  /** Splitting words joined by spaces gives the words back. */
  lemma {:induction false} SplitJoin(words: seq<string>)
    requires forall i :: 0 <= i < |words| ==> IsWord(words[i])
    ensures Split(JoinWords(words)) == words
  {
    if |words| <= 1 {
      SplitJoinShort(words);
    } else {
      SplitJoin(words[1..]);
      SplitJoinStep(words);
    }
  }

  lemma SplitJoinShort(words: seq<string>)
    requires |words| <= 1 && forall i :: 0 <= i < |words| ==> IsWord(words[i])
    ensures Split(JoinWords(words)) == words
  {
    if words == [] {
      SplitEmpty();
    } else {
      SplitSingle(words[0]);
      assert [words[0]] == words;
    }
  }

  lemma SplitEmpty()
    ensures Split([]) == []
  {
    assert StripLeft([]) == [];
  }

  /** A lone word splits into itself. */
  lemma SplitSingle(w: string)
    requires IsWord(w)
    ensures Split(w) == [w]
  {
    SplitWord(w, []);
    assert w + [] == w;
    SplitEmpty();
  }

  lemma SplitJoinStep(words: seq<string>)
    requires |words| > 1 && forall i :: 0 <= i < |words| ==> IsWord(words[i])
    requires Split(JoinWords(words[1..])) == words[1..]
    ensures Split(JoinWords(words)) == words
  {
    SplitJoinHead(words);
    FirstAndRest(words);
  }

  /** Joining splits off the first word, then the join of the rest. */
  lemma SplitJoinHead(words: seq<string>)
    requires |words| > 1 && forall i :: 0 <= i < |words| ==> IsWord(words[i])
    ensures Split(JoinWords(words)) == [words[0]] + Split(JoinWords(words[1..]))
  {
    JoinWordsStart(words[1..]);
    SplitWordThenSpace(words[0], JoinWords(words[1..]));
  }

  lemma FirstAndRest(words: seq<string>)
    requires words != []
    ensures [words[0]] + words[1..] == words
  {
  }

  lemma SplitWordThenSpace(w: string, rest: string)
    requires IsWord(w) && |rest| > 0 && !IsSpace(rest[0])
    ensures Split(w + (" " + rest)) == [w] + Split(rest)
  {
    SplitWord(w, " " + rest);
    SplitSkipsSpace(' ', rest);
  }

  /** A word followed by nothing or by whitespace is split off whole. */
  lemma SplitWord(w: string, tail: string)
    requires IsWord(w) && (tail == [] || IsSpace(tail[0]))
    ensures Split(w + tail) == [w] + Split(tail)
  {
    var s := w + tail;
    assert StripLeft(s) == s;
    IndexOfSpaceWord(w, tail);
    assert s[..|w|] == w && s[|w|..] == tail;
  }

  lemma SplitSkipsSpace(c: char, x: string)
    requires IsSpace(c) && (x == [] || !IsSpace(x[0]))
    ensures Split([c] + x) == Split(x)
  {
    assert ([c] + x)[1..] == x;
    assert StripLeft([c] + x) == StripLeft(x);
  }

  lemma {:induction false} IndexOfSpaceWord(w: string, tail: string)
    requires IsWord(w) && (tail == [] || IsSpace(tail[0]))
    ensures IndexOfSpace(w + tail) == |w|
    decreases |w|
  {
    if |w| > 1 {
      assert (w + tail)[1..] == w[1..] + tail;
      IndexOfSpaceWord(w[1..], tail);
    } else {
      assert (w + tail)[1..] == tail;
    }
  }

  lemma {:induction false} JoinWordsStart(words: seq<string>)
    requires words != [] && forall i :: 0 <= i < |words| ==> IsWord(words[i])
    ensures |JoinWords(words)| > 0 && !IsSpace(JoinWords(words)[0])
  {
    assert IsWord(words[0]);
    if |words| > 1 {
      assert JoinWords(words) == words[0] + (" " + JoinWords(words[1..]));
    }
  }

  // ---------------------------------------------------------------- lower()

  /** `str.lower()` per character, for ASCII and the Latin-1 capitals. */
  function LowerChar(c: char): (r: char)
    ensures ('A' <= c <= 'Z') ==> ('a' <= r <= 'z')
  {
    if ('A' <= c <= 'Z') || ('\U{C0}' <= c <= '\U{DE}' && c != '\U{D7}') then
      ((c as int) + 32) as char
    else c
  }

  function Lower(s: string): (r: string)
    ensures |r| == |s| && forall i :: 0 <= i < |s| ==> r[i] == LowerChar(s[i])
  {
    seq(|s|, i requires 0 <= i < |s| => LowerChar(s[i]))
  }

  // ---------------------------------------------------------------- replace()

  /** `s.replace(pat, rep)`: every non-overlapping occurrence, left to right. */
  function ReplaceAll(s: string, pat: string, rep: string): string
    requires |pat| > 0
    decreases |s|
  {
    if |s| < |pat| then s
    else if s[..|pat|] == pat then rep + ReplaceAll(s[|pat|..], pat, rep)
    else [s[0]] + ReplaceAll(s[1..], pat, rep)
  }

  predicate OccursAt(s: string, pat: string, i: int) {
    0 <= i && i + |pat| <= |s| && s[i..i + |pat|] == pat
  }

  /** Replacement leaves a string without the pattern untouched. */
  lemma {:induction false} ReplaceAbsent(s: string, pat: string, rep: string)
    requires |pat| > 0
    requires forall i :: !OccursAt(s, pat, i)
    ensures ReplaceAll(s, pat, rep) == s
    decreases |s|
  {
    if |s| >= |pat| {
      assert !OccursAt(s, pat, 0);
      forall i ensures !OccursAt(s[1..], pat, i) {
        if OccursAt(s[1..], pat, i) {
          assert s[1..][i..i + |pat|] == s[i + 1..i + 1 + |pat|];
          assert OccursAt(s, pat, i + 1);
        }
      }
      ReplaceAbsent(s[1..], pat, rep);
    }
  }
}
