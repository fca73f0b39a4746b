/**
 * The economic calendar as the event services keep it in memory: the
 * releases of each date (GLOBAL_CALENDAR) and the release dates of each
 * event (GLOBAL_HISTORY), and the steps every event query takes over
 * them: the window of dates around the target, the importance filter,
 * the shift of each release, and the part of an event's history that
 * lies before the target.
 *
 * An entry's importance is kept in the form each service stores it (a
 * number or a word), and R is what else it carries: the 27 service keeps
 * the release's actual, forecast and previous values.
 */
module Calendar {
  import opened Wrappers
  import opened Dates
  import opened Sorting

  datatype CalEntry<I, R> = CalEntry(eid: int, importance: I, date: int, readings: R)

  /** A calendar row as the query returns it. */
  datatype CalRow<I, R> = CalRow(eid: int, date: int, importance: I, readings: R)

  /** Importance 1 is low in the numeric calendars; a NULL importance is not low. */
  predicate IsLowRank(importance: Option<int>)
  {
    importance == Some(1)
  }

  /** The 23 calendars grade importance 'low', 'medium' or 'high'. */
  predicate IsLowLabel(importance: Option<string>)
  {
    importance == Some("low")
  }

  /** timedelta(hours=1) for day == 0, timedelta(days=1) otherwise. */
  function StepUnit(day: int): (u: int)
    ensures u == Hour <==> day == 0
    ensures u == Hour || u == Day
  {
    if day == 0 then Hour else Day
  }

  /** target + unit * k for k in range(lo, hi + 1). */
  function CheckDates(target: int, unit: int, lo: int, hi: int): (s: seq<int>)
    ensures |s| == if hi >= lo then hi - lo + 1 else 0
    ensures forall i :: 0 <= i < |s| ==> s[i] == target + unit * (lo + i)
  {
    seq(if hi >= lo then hi - lo + 1 else 0, i => target + unit * (lo + i))
  }

  function Lookup<I(==,!new), R(==,!new)>(calendar: map<int, seq<CalEntry<I, R>>>, dt: int): seq<CalEntry<I, R>>
  {
    if dt in calendar then calendar[dt] else []
  }

  /** The entries of one date that the window keeps: all of them at the target, the not-low ones elsewhere. */
  function KeptAt<I(==,!new), R(==,!new)>(entries: seq<CalEntry<I, R>>, dt: int, target: int, isLow: I -> bool): (r: seq<CalEntry<I, R>>)
    ensures forall e :: e in r <==> e in entries && (!isLow(e.importance) || dt == target)
  {
    if |entries| == 0 then []
    else
      var last := entries[|entries| - 1];
      var init := KeptAt(entries[..|entries| - 1], dt, target, isLow);
      assert forall e :: e in entries <==> e in entries[..|entries| - 1] || e == last;
      if !isLow(last.importance) || dt == target then init + [last] else init
  }

  /** events_in_window, date by date in window order. */
  function EventsInWindow<I(==,!new), R(==,!new)>(calendar: map<int, seq<CalEntry<I, R>>>, dates: seq<int>, target: int, isLow: I -> bool): seq<CalEntry<I, R>>
  {
    if |dates| == 0 then []
    else
      var dt := dates[|dates| - 1];
      EventsInWindow(calendar, dates[..|dates| - 1], target, isLow) + KeptAt(Lookup(calendar, dt), dt, target, isLow)
  }

  /** An event is in the window exactly when some window date lists it and it is not low or that date is the target. */
  lemma {:induction false} EventsInWindowMeaning<I(!new), R(!new)>(calendar: map<int, seq<CalEntry<I, R>>>, dates: seq<int>, target: int,
                                                       isLow: I -> bool, e: CalEntry<I, R>)
    ensures e in EventsInWindow(calendar, dates, target, isLow)
            <==> exists i :: 0 <= i < |dates| && e in Lookup(calendar, dates[i]) && (!isLow(e.importance) || dates[i] == target)
  {
    if |dates| > 0 {
      var init := dates[..|dates| - 1];
      EventsInWindowMeaning(calendar, init, target, isLow, e);
      if exists i :: 0 <= i < |init| && e in Lookup(calendar, init[i]) && (!isLow(e.importance) || init[i] == target) {
        var i :| 0 <= i < |init| && e in Lookup(calendar, init[i]) && (!isLow(e.importance) || init[i] == target);
        assert dates[i] == init[i];
      }
      if exists i :: 0 <= i < |dates| && e in Lookup(calendar, dates[i]) && (!isLow(e.importance) || dates[i] == target) {
        var i :| 0 <= i < |dates| && e in Lookup(calendar, dates[i]) && (!isLow(e.importance) || dates[i] == target);
        if i < |init| {
          assert init[i] == dates[i];
        }
      }
    }
  }

  /** The window over two stretches of dates is the window over each, in turn. */
  lemma {:induction false} EventsInWindowAppend<I(!new), R(!new)>(calendar: map<int, seq<CalEntry<I, R>>>, a: seq<int>, b: seq<int>,
                                                                   target: int, isLow: I -> bool)
    ensures EventsInWindow(calendar, a + b, target, isLow) == EventsInWindow(calendar, a, target, isLow) + EventsInWindow(calendar, b, target, isLow)
  {
    if |b| == 0 {
      assert a + b == a;
    } else {
      EventsInWindowAppend(calendar, a, b[..|b| - 1], target, isLow);
      assert (a + b)[..|a + b| - 1] == a + b[..|b| - 1];
    }
  }

  /** Two calendars that list the same entries on every window date give the same window. */
  lemma {:induction false} EventsInWindowLocal<I(!new), R(!new)>(c1: map<int, seq<CalEntry<I, R>>>, c2: map<int, seq<CalEntry<I, R>>>,
                                                                  dates: seq<int>, target: int, isLow: I -> bool)
    requires forall i :: 0 <= i < |dates| ==> Lookup(c1, dates[i]) == Lookup(c2, dates[i])
    ensures EventsInWindow(c1, dates, target, isLow) == EventsInWindow(c2, dates, target, isLow)
  {
    if |dates| > 0 {
      EventsInWindowLocal(c1, c2, dates[..|dates| - 1], target, isLow);
      assert Lookup(c1, dates[|dates| - 1]) == Lookup(c2, dates[|dates| - 1]);
    }
  }

  /** Check dates over lo..hi split at any step in between. */
  lemma CheckDatesSplit(target: int, unit: int, lo: int, mid: int, hi: int)
    requires lo <= mid <= hi + 1
    ensures CheckDates(target, unit, lo, hi) == CheckDates(target, unit, lo, mid - 1) + CheckDates(target, unit, mid, hi)
  {
    var a := CheckDates(target, unit, lo, mid - 1);
    var b := CheckDates(target, unit, mid, hi);
    var all := CheckDates(target, unit, lo, hi);
    assert |all| == |a| + |b|;
    forall i | 0 <= i < |all|
      ensures all[i] == (a + b)[i]
    {
      if i >= |a| {
        assert (a + b)[i] == b[i - |a|];
        assert target + unit * (mid + (i - |a|)) == target + unit * (lo + i);
      }
    }
  }

  /** In a calendar filed by date, an entry the window finds is dated at one of the window's steps. */
  lemma InWindowIsAtStep<I(!new), R(!new)>(calendar: map<int, seq<CalEntry<I, R>>>, target: int, unit: int, lo: int, hi: int,
                                          isLow: I -> bool, e: CalEntry<I, R>)
    requires forall dt, x :: dt in calendar && x in calendar[dt] ==> x.date == dt
    requires e in EventsInWindow(calendar, CheckDates(target, unit, lo, hi), target, isLow)
    ensures exists k :: lo <= k <= hi && e.date == target + unit * k
  {
    var dates := CheckDates(target, unit, lo, hi);
    EventsInWindowMeaning(calendar, dates, target, isLow, e);
    var i :| 0 <= i < |dates| && e in Lookup(calendar, dates[i]) && (!isLow(e.importance) || dates[i] == target);
    assert e.date == target + unit * (lo + i);
  }

  /** The window loops: the check dates, then each date's kept entries. */
  method CollectEvents<I(==,!new), R(==,!new)>(calendar: map<int, seq<CalEntry<I, R>>>, target: int, unit: int, lo: int, hi: int, isLow: I -> bool)
    returns (events: seq<CalEntry<I, R>>)
    ensures events == EventsInWindow(calendar, CheckDates(target, unit, lo, hi), target, isLow)
  {
    var dates: seq<int> := [];
    var k := lo;
    while k < hi + 1
      invariant k == lo + |dates| && (k == lo || k <= hi + 1)
      invariant dates == CheckDates(target, unit, lo, k - 1)
      decreases hi + 1 - k
    {
      dates := dates + [target + unit * k];
      k := k + 1;
    }
    if hi < lo {
      assert |CheckDates(target, unit, lo, hi)| == 0;
    } else {
      assert k - 1 == hi;
    }
    events := [];
    for i := 0 to |dates|
      invariant events == EventsInWindow(calendar, dates[..i], target, isLow)
    {
      var dt := dates[i];
      assert dates[..i + 1][..i] == dates[..i];
      var entries := Lookup(calendar, dt);
      var kept: seq<CalEntry<I, R>> := [];
      for j := 0 to |entries|
        invariant kept == KeptAt(entries[..j], dt, target, isLow)
      {
        assert entries[..j + 1][..j] == entries[..j];
        var e := entries[j];
        if isLow(e.importance) && dt != target {
          continue;
        }
        kept := kept + [e];
      }
      assert entries[..|entries|] == entries;
      events := events + kept;
    }
    assert dates[..|dates|] == dates;
  }

  /** int(diff.total_seconds() / 3600) for day == 0, diff.days otherwise. */
  function Shift(day: int, target: int, date: int): int
  {
    if day == 0 then Hours(target - date) else Days(target - date)
  }

  /** A release found at window step k is -k steps away, whichever rounding is used. */
  lemma ShiftOfStep(day: int, target: int, k: int)
    ensures Shift(day, target, target + StepUnit(day) * k) == -k
  {
    WholeShifts(-k);
    if day == 0 {
      assert target - (target + Hour * k) == (-k) * Hour;
    } else {
      assert target - (target + Day * k) == (-k) * Day;
    }
  }

  /** [d for d in history if d < target]. */
  function ValidDates(history: seq<int>, target: int): (r: seq<int>)
    ensures |r| <= |history|
    ensures forall d :: d in r <==> d in history && d < target
  {
    if |history| == 0 then []
    else
      var d := history[|history| - 1];
      var init := ValidDates(history[..|history| - 1], target);
      assert forall x :: x in history <==> x in history[..|history| - 1] || x == d;
      if d < target then init + [d] else init
  }

  /** Releases at or after the target never change the history a query uses. */
  lemma {:induction false} ValidDatesIgnoresLater(history: seq<int>, later: seq<int>, target: int)
    requires forall k :: 0 <= k < |later| ==> later[k] >= target
    ensures ValidDates(history + later, target) == ValidDates(history, target)
  {
    if |later| > 0 {
      var init := later[..|later| - 1];
      ValidDatesIgnoresLater(history, init, target);
      assert (history + later)[..|history + later| - 1] == history + init;
    } else {
      assert history + later == history;
    }
  }

  lemma {:induction false} ValidDatesOfSplit(s: seq<int>, i: int, x: int)
    requires 0 <= i <= |s|
    requires forall k :: 0 <= k < i ==> s[k] < x
    requires forall k :: i <= k < |s| ==> s[k] >= x
    ensures ValidDates(s, x) == s[..i]
  {
    if |s| > 0 {
      var init := s[..|s| - 1];
      if i == |s| {
        ValidDatesOfSplit(init, i - 1, x);
        assert s == init + [s[|s| - 1]];
      } else {
        ValidDatesOfSplit(init, i, x);
      }
    }
  }

  /** On a sorted history the search and the filter agree: the dates before the target, in order. */
  lemma EarlierIsValidDates(s: seq<int>, x: int)
    requires SortedInts(s)
    ensures Earlier(s, x) == ValidDates(s, x)
  {
    EarlierIsPrefix(s, x);
    ValidDatesOfSplit(s, |Earlier(s, x)|, x);
  }

  /** [d + delta for d in dates]. */
  function Shifted(dates: seq<int>, delta: int): (r: seq<int>)
    ensures |r| == |dates|
    ensures forall i :: 0 <= i < |dates| ==> r[i] == dates[i] + delta
  {
    seq(|dates|, i requires 0 <= i < |dates| => dates[i] + delta)
  }

  // ------------------------------------------------------------ loading

  function DatesOf(history: map<int, seq<int>>, eid: int): seq<int>
  {
    if eid in history then history[eid] else []
  }

  /** The history after the rows: each row's date appended to its event's list. */
  function HistoryOf<I(==,!new), R(==,!new)>(history: map<int, seq<int>>, rows: seq<CalRow<I, R>>): map<int, seq<int>>
  {
    if |rows| == 0 then history
    else
      var h := HistoryOf(history, rows[..|rows| - 1]);
      var r := rows[|rows| - 1];
      h[r.eid := DatesOf(h, r.eid) + [r.date]]
  }

  /** The calendar after the rows: each row's entry appended to its date's list. */
  function CalendarOf<I(==,!new), R(==,!new)>(calendar: map<int, seq<CalEntry<I, R>>>, rows: seq<CalRow<I, R>>): map<int, seq<CalEntry<I, R>>>
  {
    if |rows| == 0 then calendar
    else
      var c := CalendarOf(calendar, rows[..|rows| - 1]);
      var r := rows[|rows| - 1];
      c[r.date := Lookup(c, r.date) + [CalEntry(r.eid, r.importance, r.date, r.readings)]]
  }

  /** The loop filling both maps from the rows, on top of what they already hold. */
  method LoadCalendar<I(==,!new), R(==,!new)>(rows: seq<CalRow<I, R>>, history0: map<int, seq<int>>, calendar0: map<int, seq<CalEntry<I, R>>>)
    returns (history: map<int, seq<int>>, calendar: map<int, seq<CalEntry<I, R>>>)
    ensures history == HistoryOf(history0, rows) && calendar == CalendarOf(calendar0, rows)
  {
    history, calendar := history0, calendar0;
    for i := 0 to |rows|
      invariant history == HistoryOf(history0, rows[..i]) && calendar == CalendarOf(calendar0, rows[..i])
    {
      assert rows[..i + 1][..i] == rows[..i];
      var r := rows[i];
      history := history[r.eid := DatesOf(history, r.eid) + [r.date]];
      calendar := calendar[r.date := Lookup(calendar, r.date) + [CalEntry(r.eid, r.importance, r.date, r.readings)]];
    }
    assert rows[..|rows|] == rows;
  }

  /** Some entry of the list belongs to the event. */
  predicate ListsEvent<I(==), R(==)>(entries: seq<CalEntry<I, R>>, eid: int)
  {
    exists e :: e in entries && e.eid == eid
  }

  /**
   * The two maps agree: every entry is filed under its own date, and a
   * date is in an event's history exactly when that date's list holds an
   * entry of the event.
   */
  predicate Consistent<I(==,!new), R(==,!new)>(history: map<int, seq<int>>, calendar: map<int, seq<CalEntry<I, R>>>)
  {
    (forall dt, e :: dt in calendar && e in calendar[dt] ==> e.date == dt)
    && (forall eid, d :: eid in history && d in history[eid] ==> ListsEvent(Lookup(calendar, d), eid))
    && (forall dt, e :: dt in calendar && e in calendar[dt] ==> e.eid in history && dt in history[e.eid])
  }

  /** Loading rows keeps the two maps consistent; an empty start is consistent. */
  lemma {:induction false} LoadKeepsConsistent<I(!new), R(!new)>(history0: map<int, seq<int>>, calendar0: map<int, seq<CalEntry<I, R>>>, rows: seq<CalRow<I, R>>)
    requires Consistent(history0, calendar0)
    ensures Consistent(HistoryOf(history0, rows), CalendarOf(calendar0, rows))
  {
    if |rows| > 0 {
      var init := rows[..|rows| - 1];
      LoadKeepsConsistent(history0, calendar0, init);
      var h := HistoryOf(history0, init);
      var c := CalendarOf(calendar0, init);
      var r := rows[|rows| - 1];
      var e0 := CalEntry(r.eid, r.importance, r.date, r.readings);
      var h2 := HistoryOf(history0, rows);
      var c2 := CalendarOf(calendar0, rows);
      assert h2 == h[r.eid := DatesOf(h, r.eid) + [r.date]];
      assert c2 == c[r.date := Lookup(c, r.date) + [e0]];
      forall eid, d | eid in h2 && d in h2[eid]
        ensures ListsEvent(Lookup(c2, d), eid)
      {
        if eid == r.eid && d == r.date {
          assert e0 in Lookup(c2, d);
        } else {
          assert d in h[eid];
          var e :| e in Lookup(c, d) && e.eid == eid;
          assert e in Lookup(c2, d);
        }
      }
      forall dt, e: CalEntry<I, R> | dt in c2 && e in c2[dt]
        ensures e.eid in h2 && dt in h2[e.eid]
      {
        if e != e0 || dt != r.date {
          assert e in c[dt];
        }
      }
    }
  }

  lemma EmptyIsConsistent<I(!new), R(!new)>()
    ensures Consistent<I, R>(map[], map[])
  {
  }
}
