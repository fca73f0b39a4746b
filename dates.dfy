/**
 * Reading the request's target date, and the time arithmetic the engines
 * do on it. Timestamps are whole seconds on one naive (zone-less) clock,
 * as the services' datetimes are.
 *
 * datetime.strptime itself is Python's library code; it is a parameter
 * here, one partial parser per format. What is modelled is the order in
 * which the services try the formats, the first success winning, and
 * the str.strip() that all but the 23 services apply first.
 */
module Dates {
  import opened Wrappers
  import opened Text

  /** The formats, as the services name them. */
  datatype Format =
    | DayFirst    // "%Y-%d-%m %H:%M:%S"
    | MonthFirst  // "%Y-%m-%d %H:%M:%S"
    | IsoT        // "%Y-%m-%dT%H:%M:%S"
    | DateOnly    // "%Y-%m-%d", midnight

  /** One strptime call: the timestamp, or none when it raises ValueError. */
  type Strptime = (string, Format) -> Option<int>

  /** The four formats of the 25, 27, 30, 31 and 32 services, in the order tried. */
  const FullFormats: seq<Format> := [DayFirst, MonthFirst, IsoT, DateOnly]

  /** The two formats of the 23 services. */
  const LegacyFormats: seq<Format> := [DayFirst, MonthFirst]

  /** Try the formats in order; the first that parses decides. */
  function FirstParse(s: string, formats: seq<Format>, strptime: Strptime): (r: Option<int>)
    ensures r.None? <==> forall i :: 0 <= i < |formats| ==> strptime(s, formats[i]).None?
    ensures r.Some? ==> exists i :: 0 <= i < |formats| && strptime(s, formats[i]) == r
                          && forall j :: 0 <= j < i ==> strptime(s, formats[j]).None?
  {
    if |formats| == 0 then None
    else
      var r := strptime(s, formats[0]);
      if r.Some? then r
      else
        var rest := FirstParse(s, formats[1..], strptime);
        assert forall i :: 0 < i < |formats| ==> formats[i] == formats[1..][i - 1];
        rest
  }

  // ------------------------------------------------------------ the services' parsers

  /** parse_date_string of the 25, 27, 30, 31 and 32 services. */
  function ParseDate(s: string, strptime: Strptime): Option<int>
  {
    FirstParse(Strip(s), FullFormats, strptime)
  }

  /** parse_date_string of the two 23 services: no strip, two formats. */
  function ParseDateLegacy(s: string, strptime: Strptime): Option<int>
  {
    FirstParse(s, LegacyFormats, strptime)
  }

  /** Surrounding whitespace never changes what the stripping parser reads. */
  lemma ParseDateIgnoresPadding(s: string, strptime: Strptime)
    ensures ParseDate(s, strptime) == ParseDate(Strip(s), strptime)
  {
    StripIdempotent(s);
  }

  /**
   * On a string without surrounding whitespace, whatever the 23 parser
   * reads the newer parser reads the same way; the newer parser accepts
   * more (the ISO and date-only forms).
   */
  lemma LegacyAgrees(s: string, strptime: Strptime)
    requires Strip(s) == s
    requires ParseDateLegacy(s, strptime).Some?
    ensures ParseDate(s, strptime) == ParseDateLegacy(s, strptime)
  {
    assert FullFormats[..2] == LegacyFormats;
    if strptime(s, DayFirst).None? {
      assert LegacyFormats[1] == MonthFirst;
    }
  }

  /** A string every format rejects is an invalid date for both parsers. */
  lemma BothReject(s: string, strptime: Strptime)
    requires Strip(s) == s
    requires forall f :: strptime(s, f).None?
    ensures ParseDate(s, strptime).None? && ParseDateLegacy(s, strptime).None?
  {
  }

  // ------------------------------------------------------------ time arithmetic

  const Hour: int := 3600
  const Day: int := 86400

  /** timedelta(days=1) when day == 1, else timedelta(hours=1). */
  function DeltaUnit(day: int): (u: int)
    ensures u == Hour || u == Day
    ensures u == Day <==> day == 1
  {
    if day == 1 then Day else Hour
  }

  /** datetime.date(): midnight of the same day. */
  function DateOf(t: int): (d: int)
    ensures d <= t < d + Day
    ensures d % Day == 0
  {
    t - t % Day
  }

  /** timedelta.days: whole days, rounded towards minus infinity. */
  function Days(seconds: int): (n: int)
    ensures n * Day <= seconds < n * Day + Day
  {
    seconds / Day
  }

  /** int(x / y) for y > 0: the quotient truncated towards zero. */
  function TruncDiv(x: int, y: int): (q: int)
    requires y > 0
    ensures x >= 0 ==> q * y <= x < q * y + y
    ensures x < 0 ==> q * y - y < x <= q * y
  {
    if x >= 0 then x / y else -((-x) / y)
  }

  /** int(delta.total_seconds() / 3600): whole hours, truncated towards zero. */
  function Hours(seconds: int): int
  {
    TruncDiv(seconds, Hour)
  }

  /**
   * Truncated hours and floored days disagree for a negative offset that is
   * not whole: an event half an hour after the target is zero hours away
   * but minus one day away.
   */
  lemma TruncationVersusFloor()
    ensures Hours(-1800) == 0
    ensures Days(-1800) == -1
  {
  }

  /** On whole multiples of the unit both roundings are exact. */
  lemma WholeShifts(k: int)
    ensures Hours(k * Hour) == k
    ensures Days(k * Day) == k
  {
    if k < 0 {
      assert -(k * Hour) == (-k) * Hour;
    }
  }
}
