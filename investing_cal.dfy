/**
 * The pure part of the investing.com calendar collector
 * (parser/investing_cal.py): the calendar arithmetic that cuts the
 * download into one request per month, the incremental start date, the
 * converters that turn the API's JSON values into column values, and the
 * mapping of one API occurrence to a table row.
 *
 * Dates are Python's datetime.date, counted from 0001-01-01; `Ordinal` is
 * date.toordinal() and serves as the reference the day arithmetic is
 * proved against.
 */
module InvestingCal {
  import opened Wrappers
  import opened Text

  // ------------------------------------------------------------- dates

  datatype Date = Date(year: int, month: int, day: int)

  predicate Leap(y: int)
  {
    y % 4 == 0 && (y % 100 != 0 || y % 400 == 0)
  }

  function DaysInMonth(y: int, m: int): int
  {
    if m == 2 then (if Leap(y) then 29 else 28)
    else if m == 4 || m == 6 || m == 9 || m == 11 then 30
    else 31
  }

  /** A date a datetime.date can hold (year 9999 as the upper end is not modelled). */
  predicate ValidDate(d: Date)
  {
    d.year >= 1 && 1 <= d.month <= 12 && 1 <= d.day <= DaysInMonth(d.year, d.month)
  }

  /** `a < b` on dates. */
  predicate Before(a: Date, b: Date)
  {
    a.year < b.year || (a.year == b.year && (a.month < b.month || (a.month == b.month && a.day < b.day)))
  }

  /** `max(a, b)` on dates. */
  function Later(a: Date, b: Date): Date
  {
    if Before(a, b) then b else a
  }

  /** `min(a, b)` on dates. */
  function Earlier(a: Date, b: Date): Date
  {
    if Before(b, a) then b else a
  }

  /** The months since the start of year 0: consecutive months differ by one. */
  function MonthIndex(d: Date): int
  {
    12 * d.year + d.month - 1
  }

  function DaysInYear(y: int): int
  {
    if Leap(y) then 366 else 365
  }

  function DaysBeforeYear(y: int): nat
  {
    if y <= 1 then 0 else DaysBeforeYear(y - 1) + DaysInYear(y - 1)
  }

  function DaysBeforeMonth(y: int, m: int): int
  {
    (if m <= 1 then 0 else if m == 2 then 31 else if m == 3 then 59 else if m == 4 then 90
     else if m == 5 then 120 else if m == 6 then 151 else if m == 7 then 181 else if m == 8 then 212
     else if m == 9 then 243 else if m == 10 then 273 else if m == 11 then 304 else 334)
    + (if m > 2 && Leap(y) then 1 else 0)
  }

  /** date.toordinal(): 0001-01-01 is day 1. */
  function Ordinal(d: Date): int
  {
    DaysBeforeYear(d.year) + DaysBeforeMonth(d.year, d.month) + d.day
  }

  /** `d - timedelta(days=1)`. */
  function PrevDay(d: Date): (r: Date)
    requires ValidDate(d) && d != Date(1, 1, 1)
    ensures ValidDate(r)
  {
    if d.day > 1 then Date(d.year, d.month, d.day - 1)
    else if d.month > 1 then Date(d.year, d.month - 1, DaysInMonth(d.year, d.month - 1))
    else Date(d.year - 1, 12, 31)
  }

  /** `d + timedelta(days=1)`. */
  function NextDay(d: Date): (r: Date)
    requires ValidDate(d)
    ensures ValidDate(r)
  {
    if d.day < DaysInMonth(d.year, d.month) then Date(d.year, d.month, d.day + 1)
    else if d.month < 12 then Date(d.year, d.month + 1, 1)
    else Date(d.year + 1, 1, 1)
  }

  /** The day before is one ordinal down. */
  lemma PrevDayOrdinal(d: Date)
    requires ValidDate(d) && d != Date(1, 1, 1)
    ensures Ordinal(PrevDay(d)) == Ordinal(d) - 1
  {
  }

  /** The next day is one ordinal up. */
  lemma NextDayOrdinal(d: Date)
    requires ValidDate(d)
    ensures Ordinal(NextDay(d)) == Ordinal(d) + 1
  {
  }

  /** The day before a date is the one whose next day it is. */
  lemma NextOfPrev(d: Date)
    requires ValidDate(d) && d != Date(1, 1, 1)
    ensures NextDay(PrevDay(d)) == d
  {
  }

  /** `d - timedelta(days=n)`: None where Python raises OverflowError, before 0001-01-01. */
  function MinusDays(d: Date, n: nat): (r: Option<Date>)
    requires ValidDate(d)
    ensures r.Some? <==> Ordinal(d) > n
    ensures r.Some? ==> ValidDate(r.value) && Ordinal(r.value) == Ordinal(d) - n
    decreases n
  {
    if n == 0 then Some(d)
    else if d == Date(1, 1, 1) then None
    else
      PrevDayOrdinal(d);
      MinusDays(PrevDay(d), n - 1)
  }

  lemma {:induction false} DaysBeforeYearGrows(a: int, b: int)
    requires 1 <= a <= b
    ensures DaysBeforeYear(a) + 365 * (b - a) <= DaysBeforeYear(b)
    decreases b - a
  {
    if a < b {
      DaysBeforeYearGrows(a, b - 1);
    }
  }

  lemma MonthsBeforeGrow(y: int, m1: int, m2: int)
    requires 1 <= m1 < m2 <= 12
    ensures DaysBeforeMonth(y, m1) + DaysInMonth(y, m1) <= DaysBeforeMonth(y, m2)
  {
  }

  /** A valid date's ordinal lies inside its year. */
  lemma OrdinalInYear(d: Date)
    requires ValidDate(d)
    ensures DaysBeforeYear(d.year) < Ordinal(d) <= DaysBeforeYear(d.year) + DaysInYear(d.year)
  {
  }

  /** The order of dates is the order of their ordinals. */
  lemma OrdinalOrder(a: Date, b: Date)
    requires ValidDate(a) && ValidDate(b)
    ensures Before(a, b) <==> Ordinal(a) < Ordinal(b)
    ensures a == b <==> Ordinal(a) == Ordinal(b)
  {
    OrdinalInYear(a);
    OrdinalInYear(b);
    if a.year < b.year {
      DaysBeforeYearGrows(a.year + 1, b.year);
      assert DaysBeforeYear(a.year + 1) == DaysBeforeYear(a.year) + DaysInYear(a.year);
    } else if b.year < a.year {
      DaysBeforeYearGrows(b.year + 1, a.year);
      assert DaysBeforeYear(b.year + 1) == DaysBeforeYear(b.year) + DaysInYear(b.year);
    } else if a.month < b.month {
      MonthsBeforeGrow(a.year, a.month, b.month);
    } else if b.month < a.month {
      MonthsBeforeGrow(a.year, b.month, a.month);
    }
  }

  // ---------------------------------------------------- month chunking

  /** add_month: the first day of the month after d's. */
  function AddMonth(d: Date): (r: Date)
    requires ValidDate(d)
    ensures ValidDate(r) && r.day == 1
    ensures MonthIndex(r) == MonthIndex(d) + 1
  {
    if d.month == 12 then Date(d.year + 1, 1, 1) else Date(d.year, d.month + 1, 1)
  }

  /** One request window: first and last day, both included. */
  datatype Range = Range(first: Date, last: Date)

  /** Both ends of the window are valid dates of the month with that index. */
  predicate InMonth(r: Range, index: int)
  {
    ValidRange(r) && MonthIndex(r.first) == index && MonthIndex(r.last) == index
  }

  /** Both ends are dates. */
  predicate ValidRange(r: Range)
  {
    ValidDate(r.first) && ValidDate(r.last)
  }

  /** A date before the first day of a month lies in an earlier month. */
  lemma BeforeFirstOfMonth(d: Date, first: Date)
    requires ValidDate(d) && ValidDate(first) && first.day == 1
    ensures Before(d, first) <==> MonthIndex(d) < MonthIndex(first)
  {
  }

  /** The last day of a date's month. */
  function LastOfMonth(d: Date): Date
  {
    Date(d.year, d.month, DaysInMonth(d.year, d.month))
  }

  lemma DayBeforeNextMonth(d: Date)
    requires ValidDate(d) && d.day == 1
    ensures PrevDay(AddMonth(d)) == LastOfMonth(d)
  {
  }

  /** `max(start, first day of the month)` for a month from start's month on. */
  lemma WindowFirst(start: Date, cur: Date)
    requires ValidDate(start) && ValidDate(cur) && cur.day == 1 && MonthIndex(start) <= MonthIndex(cur)
    ensures Later(start, cur) == if MonthIndex(cur) == MonthIndex(start) then start else cur
  {
  }

  /** `min(end, last day of the month)` for a month up to end's month. */
  lemma WindowLast(end: Date, cur: Date)
    requires ValidDate(end) && ValidDate(cur) && MonthIndex(cur) <= MonthIndex(end)
    ensures Earlier(end, LastOfMonth(cur)) == if MonthIndex(cur) == MonthIndex(end) then end else LastOfMonth(cur)
  {
  }

  /** The window holds at least one day. */
  predicate NonEmpty(r: Range)
  {
    !Before(r.last, r.first)
  }

  /** The part of [start, end] inside cur's month: `(max(start, cur), min(end, next month - 1 day))`. */
  function Window(start: Date, end: Date, cur: Date): (w: Range)
    requires ValidDate(start) && ValidDate(end) && ValidDate(cur) && cur.day == 1
    requires MonthIndex(start) <= MonthIndex(cur) <= MonthIndex(end)
    ensures InMonth(w, MonthIndex(cur))
    ensures w.first == if MonthIndex(cur) == MonthIndex(start) then start else cur
    ensures w.last == if MonthIndex(cur) == MonthIndex(end) then end else PrevDay(AddMonth(cur))
    ensures !Before(end, start) ==> NonEmpty(w)
  {
    WindowFirst(start, cur);
    WindowLast(end, cur);
    DayBeforeNextMonth(cur);
    Range(Later(start, cur), Earlier(end, PrevDay(AddMonth(cur))))
  }

  /** b's window begins the day after a's ends. */
  predicate Follows(a: Range, b: Range)
  {
    ValidRange(a) && b.first == NextDay(a.last)
  }

  /** Window k lies in the k-th month counted from `base`. */
  predicate AllInMonth(out: seq<Range>, base: int)
  {
    forall k :: 0 <= k < |out| ==> InMonth(out[k], base + k)
  }

  /** Each window begins the day after the one before it ends. */
  predicate Contiguous(out: seq<Range>)
  {
    forall k :: 0 <= k < |out| - 1 ==> Follows(out[k], out[k + 1])
  }

  predicate AllNonEmpty(out: seq<Range>)
  {
    forall k :: 0 <= k < |out| ==> NonEmpty(out[k])
  }

  lemma PushInMonth(out: seq<Range>, w: Range, base: int)
    requires AllInMonth(out, base) && InMonth(w, base + |out|)
    ensures AllInMonth(out + [w], base)
  {
    assert forall k :: 0 <= k < |out| ==> (out + [w])[k] == out[k];
  }

  lemma PushContiguous(out: seq<Range>, w: Range)
    requires Contiguous(out) && (|out| > 0 ==> Follows(out[|out| - 1], w))
    ensures Contiguous(out + [w])
  {
    assert forall k :: 0 <= k < |out| ==> (out + [w])[k] == out[k];
  }

  lemma PushNonEmpty(out: seq<Range>, w: Range)
    requires AllNonEmpty(out) && NonEmpty(w)
    ensures AllNonEmpty(out + [w])
  {
    assert forall k :: 0 <= k < |out| ==> (out + [w])[k] == out[k];
  }

  /** What month_ranges has built when it is about to cut the window of cur's month. */
  predicate Chunked(start: Date, end: Date, out: seq<Range>, cur: Date)
  {
    && ValidDate(start) && ValidDate(end) && ValidDate(cur) && cur.day == 1
    && MonthIndex(cur) == MonthIndex(start) + |out|
    && (|out| > 0 ==>
          && MonthIndex(cur) <= MonthIndex(end) + 1
          && out[0].first == start
          && cur != Date(1, 1, 1)
          && out[|out| - 1].last == if MonthIndex(cur) == MonthIndex(end) + 1 then end else PrevDay(cur))
    && AllInMonth(out, MonthIndex(start))
    && Contiguous(out)
    && (!Before(end, start) ==> AllNonEmpty(out))
  }

  /** Cutting the window of cur's month and moving to the next month keeps Chunked. */
  lemma ChunkStep(start: Date, end: Date, out: seq<Range>, cur: Date)
    requires Chunked(start, end, out, cur) && MonthIndex(cur) <= MonthIndex(end)
    ensures Chunked(start, end, out + [Window(start, end, cur)], AddMonth(cur))
  {
    var w := Window(start, end, cur);
    if |out| > 0 {
      NextOfPrev(cur);
    }
    PushInMonth(out, w, MonthIndex(start));
    PushContiguous(out, w);
    if !Before(end, start) {
      PushNonEmpty(out, w);
    }
  }

  /**
   * month_ranges: one window per calendar month from start's month to
   * end's, each the part of [start, end] inside its month. For
   * start <= end the windows are non-empty, follow each other day by day,
   * begin at start and finish at end. For end before start in the same
   * month the one window is (start, end); for end in an earlier month
   * there are none.
   */
  method MonthRanges(start: Date, end: Date) returns (out: seq<Range>)
    requires ValidDate(start) && ValidDate(end)
    ensures |out| == if MonthIndex(end) < MonthIndex(start) then 0 else MonthIndex(end) - MonthIndex(start) + 1
    ensures |out| > 0 ==> out[0].first == start && out[|out| - 1].last == end
    ensures AllInMonth(out, MonthIndex(start))
    ensures Contiguous(out)
    ensures !Before(end, start) ==> AllNonEmpty(out)
  {
    var cur := Date(start.year, start.month, 1);
    out := [];
    while !Before(end, cur)
      invariant Chunked(start, end, out, cur)
      decreases MonthIndex(end) - MonthIndex(cur) + 1
    {
      BeforeFirstOfMonth(end, cur);
      ChunkStep(start, end, out, cur);
      out := out + [Window(start, end, cur)];
      cur := AddMonth(cur);
    }
    BeforeFirstOfMonth(end, cur);
  }

  /** Windows that follow each other day by day never overlap: each ends before every later one begins. */
  lemma {:induction false} WindowsAreOrdered(out: seq<Range>, k: int, j: int)
    requires AllNonEmpty(out) && Contiguous(out)
    requires forall i :: 0 <= i < |out| ==> ValidRange(out[i])
    requires 0 <= k < j < |out|
    ensures Ordinal(out[k].last) < Ordinal(out[j].first)
    decreases j - k
  {
    NextDayOrdinal(out[j - 1].last);
    if j > k + 1 {
      WindowsAreOrdered(out, k, j - 1);
      OrdinalOrder(out[j - 1].first, out[j - 1].last);
    }
  }

  // --------------------------------------------- the incremental start

  const StartFallback := Date(1970, 1, 1)
  const LookbackDays: nat := 7

  /**
   * The first day to download: a week before the date of the latest
   * stored occurrence, but never before 1970-01-01; 1970-01-01 itself for
   * an empty table. None where the subtraction would leave the calendar.
   */
  function IncrementalStart(lastTime: Option<Date>): (r: Option<Date>)
    requires lastTime.Some? ==> ValidDate(lastTime.value)
    ensures lastTime.None? ==> r == Some(StartFallback)
    ensures lastTime.Some? ==> (r.None? <==> Ordinal(lastTime.value) <= LookbackDays)
    ensures r.Some? ==> ValidDate(r.value)
    ensures lastTime.Some? && r.Some? ==>
              Ordinal(r.value) == if Ordinal(lastTime.value) - LookbackDays < Ordinal(StartFallback)
                                  then Ordinal(StartFallback) else Ordinal(lastTime.value) - LookbackDays
  {
    match lastTime
    case None => Some(StartFallback)
    case Some(d) =>
      match MinusDays(d, LookbackDays)
      case None => None
      case Some(s) =>
        OrdinalOrder(s, StartFallback);
        Some(if Before(s, StartFallback) then StartFallback else s)
  }

  // ------------------------------------------------- the JSON values

  /**
   * A JSON value as the API returns it. A float and a list or object are
   * given with the text str() renders for them; a list or object also
   * with whether it is empty.
   */
  datatype Json = JNull | JBool(b: bool) | JInt(i: int) | JFloat(x: real, text: string) | JStr(s: string)
                | JContainer(text: string, empty: bool)

  /** `str(v)`. */
  function Str(v: Json): string
  {
    match v
    case JNull => "None"
    case JBool(b) => if b then "True" else "False"
    case JInt(i) => IntToString(i)
    case JFloat(_, t) => t
    case JStr(s) => s
    case JContainer(t, _) => t
  }

  /** Python truthiness, as `a or b` tests it. */
  predicate Truthy(v: Json)
  {
    match v
    case JNull => false
    case JBool(b) => b
    case JInt(i) => i != 0
    case JFloat(x, _) => x != 0.0
    case JStr(s) => s != ""
    case JContainer(_, empty) => !empty
  }

  /** `d.get(k)` on a JSON object: None for a missing key. */
  function Field(o: map<string, Json>, k: string): Json
  {
    Get(o, k, JNull)
  }

  /** `int(x)` of a float: toward zero. */
  function Truncate(x: real): (n: int)
    ensures x >= 0.0 ==> 0 <= n && n as real <= x < n as real + 1.0
    ensures x < 0.0 ==> n <= 0 && n as real - 1.0 < x <= n as real
  {
    if x >= 0.0 then x.Floor else -((-x).Floor)
  }

  /**
   * safe_int: int() of the value, None for None and wherever int() raises
   * (a list or object, a string that is not an integer).
   */
  function SafeInt(v: Json): (r: Option<int>)
    ensures v.JNull? || v.JContainer? ==> r.None?
    ensures v.JStr? ==> r == ParseInt(v.s)
    ensures v.JInt? ==> r == Some(v.i)
    ensures v.JBool? ==> r == Some(if v.b then 1 else 0)
    ensures v.JFloat? ==> r == Some(Truncate(v.x))
  {
    match v
    case JNull => None
    case JBool(b) => Some(if b then 1 else 0)
    case JInt(i) => Some(i)
    case JFloat(x, _) => Some(Truncate(x))
    case JStr(s) => ParseInt(s)
    case JContainer(_, _) => None
  }

  /** An integer the API sends as text is read back whole. */
  lemma SafeIntOfText(i: int)
    ensures SafeInt(JStr(IntToString(i))) == Some(i)
  {
    ParseIntOfIntToString(i);
  }

  const TrueWords: set<string> := {"true", "1", "yes"}
  const FalseWords: set<string> := {"false", "0", "no"}

  /** safe_bool: a bool as it is; anything else by its stripped, lower-cased text. */
  function SafeBool(v: Json): (r: Option<bool>)
    ensures v.JNull? ==> r.None?
    ensures v.JBool? ==> r == Some(v.b)
    ensures !v.JNull? && !v.JBool? ==>
              (r == Some(true) <==> Lower(Strip(Str(v))) in TrueWords)
              && (r == Some(false) <==> Lower(Strip(Str(v))) in FalseWords)
  {
    if v.JNull? then None
    else if v.JBool? then Some(v.b)
    else
      var s := Lower(Strip(Str(v)));
      if s in TrueWords then Some(true)
      else if s in FalseWords then Some(false)
      else None
  }

  lemma LowerOfIntToString(i: int)
    ensures Lower(IntToString(i)) == IntToString(i)
  {
    var s := IntToString(i);
    forall k | 0 <= k < |s|
      ensures Lower(s)[k] == s[k]
    {
      if i < 0 && k > 0 {
        assert s[k] == NatToString(-i)[k - 1];
      } else if i >= 0 {
        assert IsDigit(s[k]);
      }
    }
  }

  /** The text of an integer is none of the words, besides "1" and "0". */
  lemma NumeralWords(s: string)
    requires |s| >= 1 && (s[0] == '-' || IsDigit(s[0]))
    ensures s in TrueWords <==> s == "1"
    ensures s in FalseWords <==> s == "0"
  {
    assert "true"[0] == 't' && "yes"[0] == 'y' && "false"[0] == 'f' && "no"[0] == 'n';
  }

  lemma IntToStringStart(i: int)
    ensures |IntToString(i)| >= 1
    ensures IntToString(i)[0] == '-' || IsDigit(IntToString(i)[0])
  {
    if i >= 0 {
      assert IsDigit(NatToString(i)[0]);
    }
  }

  lemma OneAndZero(i: int)
    ensures IntToString(i) == "1" <==> i == 1
    ensures IntToString(i) == "0" <==> i == 0
  {
    assert IntToString(1) == "1" && IntToString(0) == "0";
    if IntToString(i) == "1" {
      IntToStringInjective(i, 1);
    } else if IntToString(i) == "0" {
      IntToStringInjective(i, 0);
    }
  }

  /** An integer flag means True for 1, False for 0 and nothing otherwise. */
  lemma SafeBoolOfInt(i: int)
    ensures SafeBool(JInt(i)) == if i == 1 then Some(true) else if i == 0 then Some(false) else None
  {
    var s := IntToString(i);
    assert Lower(Strip(Str(JInt(i)))) == s by {
      StripOfIntToString(i);
      LowerOfIntToString(i);
    }
    IntToStringStart(i);
    NumeralWords(s);
    OneAndZero(i);
  }

  function Min(a: int, b: int): int
  {
    if a < b then a else b
  }

  /** safe_str: the stripped text cut to maxLen, None for None and for blank text. */
  function SafeStr(v: Json, maxLen: nat): (r: Option<string>)
    ensures r.None? <==> v.JNull? || Strip(Str(v)) == ""
    ensures r.Some? ==> |r.value| == Min(maxLen, |Strip(Str(v))|)
    ensures r.Some? ==> r.value == Strip(Str(v))[..|r.value|]
    ensures maxLen > 0 ==> FitsText(r, maxLen)
  {
    if v.JNull? then None
    else
      var s := Strip(Str(v));
      if s == "" then None else Some(s[..Min(maxLen, |s|)])
  }

  // ------------------------------------------- one occurrence as a row

  /** IMPORTANCE_MAP.get(text.lower(), 1). */
  function ImportanceOf(text: string): (r: int)
    ensures 1 <= r <= 3
    ensures r == 2 <==> Lower(text) == "medium"
    ensures r == 3 <==> Lower(text) == "high"
  {
    var t := Lower(text);
    if t == "low" then 1 else if t == "medium" then 2 else if t == "high" then 3 else 1
  }

  /** The columns occurrence_to_db_row takes from the event definition. */
  datatype EventColumns = EventColumns(
    currency: Option<string>, importance: int, eventName: Option<string>, countryId: Option<int>,
    category: Option<string>, source: Option<string>, pageLink: Option<string>)

  /** The columns occurrence_to_db_row takes from the occurrence itself, besides its id, event and time. */
  datatype ReadingColumns = ReadingColumns(
    actual: Option<string>, forecast: Option<string>, previous: Option<string>, unit: Option<string>,
    referencePeriod: Option<string>, preliminary: Option<bool>, precisionValue: Option<int>,
    previousRevisedFrom: Option<string>, actualToForecast: Option<string>, revisedToPrevious: Option<string>)

  /** The row occurrence_to_db_row returns for the upsert, its twenty columns grouped by where they come from. */
  datatype OccurrenceRow = OccurrenceRow(
    occurrenceId: int, occurrenceTime: Option<int>, eventId: Option<int>,
    event: EventColumns, readings: ReadingColumns)

  /**
   * parse_occurrence_time_utc_to_mysql_dt: nothing for a falsy value,
   * otherwise fromisoformat (given as `fromIso`, None where it raises) on
   * the text with its 'Z' written as +00:00.
   */
  function OccurrenceTime(v: Json, fromIso: string -> Option<int>): Option<int>
  {
    if !Truthy(v) then None else fromIso(Replace(Str(v), 'Z', "+00:00"))
  }

  /** A text column that is either NULL or non-blank text within its width. */
  predicate FitsText(s: Option<string>, width: nat)
  {
    s.Some? ==> 0 < |s.value| <= width
  }

  /** The event's columns within the VARCHAR widths of the table the collector creates. */
  predicate EventFits(e: EventColumns)
  {
    && FitsText(e.currency, 8) && FitsText(e.eventName, 255) && FitsText(e.category, 64)
    && FitsText(e.source, 255) && FitsText(e.pageLink, 255) && 1 <= e.importance <= 3
  }

  /** The occurrence's text columns within the VARCHAR widths of that table. */
  predicate ReadingsFit(r: ReadingColumns)
  {
    && FitsText(r.actual, 64) && FitsText(r.forecast, 64) && FitsText(r.previous, 64)
    && FitsText(r.unit, 16) && FitsText(r.referencePeriod, 32) && FitsText(r.previousRevisedFrom, 64)
    && FitsText(r.actualToForecast, 16) && FitsText(r.revisedToPrevious, 16)
  }

  /** Every column of the row within its type in that table. */
  predicate FitsTable(r: OccurrenceRow)
  {
    EventFits(r.event) && ReadingsFit(r.readings)
  }

  /** `a or b or c`. */
  function FirstTruthy(a: Json, b: Json, c: Json): (r: Json)
    ensures Truthy(a) ==> r == a
    ensures !Truthy(a) && Truthy(b) ==> r == b
    ensures !Truthy(a) && !Truthy(b) ==> r == c
  {
    if Truthy(a) then a else if Truthy(b) then b else c
  }

  /** The event's columns; all NULL and importance 1 for an unknown event. */
  function EventColumnsOf(ev: map<string, Json>): (r: EventColumns)
    ensures EventFits(r)
    ensures ev == map[] ==> r == EventColumns(None, 1, None, None, None, None, None)
  {
    var name := FirstTruthy(Field(ev, "event_translated"), Field(ev, "long_name"), Field(ev, "short_name"));
    EventColumns(
      SafeStr(Field(ev, "currency"), 8),
      ImportanceOf(if "importance" in ev then Str(ev["importance"]) else ""),
      SafeStr(name, 255), SafeInt(Field(ev, "country_id")), SafeStr(Field(ev, "category"), 64),
      SafeStr(Field(ev, "source"), 255), SafeStr(Field(ev, "page_link"), 255))
  }

  function ReadingColumnsOf(o: map<string, Json>): (r: ReadingColumns)
    ensures ReadingsFit(r)
  {
    ReadingColumns(
      SafeStr(Field(o, "actual"), 64), SafeStr(Field(o, "forecast"), 64), SafeStr(Field(o, "previous"), 64),
      SafeStr(Field(o, "unit"), 16), SafeStr(Field(o, "reference_period"), 32), SafeBool(Field(o, "preliminary")),
      SafeInt(Field(o, "precision")), SafeStr(Field(o, "previous_revised_from"), 64),
      SafeStr(Field(o, "actual_to_forecast"), 16), SafeStr(Field(o, "revised_to_previous"), 16))
  }

  /**
   * occurrence_to_db_row: nothing for an occurrence without an integer
   * id; otherwise the occurrence's own fields next to those of its event
   * (none when the event is unknown), every text cut to its column.
   */
  function OccurrenceToRow(o: map<string, Json>, events: map<int, map<string, Json>>,
                           fromIso: string -> Option<int>): (r: Option<OccurrenceRow>)
    ensures r.None? <==> SafeInt(Field(o, "occurrence_id")).None?
    ensures r.Some? ==> r.value.occurrenceId == SafeInt(Field(o, "occurrence_id")).value
    ensures r.Some? ==> r.value.eventId == SafeInt(Field(o, "event_id")) && FitsTable(r.value)
    ensures r.Some? && (r.value.eventId.None? || r.value.eventId.value !in events) ==>
              r.value.event == EventColumns(None, 1, None, None, None, None, None)
  {
    match SafeInt(Field(o, "occurrence_id"))
    case None => None
    case Some(occId) =>
      var eid := SafeInt(Field(o, "event_id"));
      var ev: map<string, Json> := if eid.Some? && eid.value in events then events[eid.value] else map[];
      Some(OccurrenceRow(occId, OccurrenceTime(Field(o, "occurrence_time"), fromIso), eid,
                         EventColumnsOf(ev), ReadingColumnsOf(o)))
  }
}
