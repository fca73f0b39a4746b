/**
 * The event-context index of the event service: one row per
 * (event_id, forecast direction, surprise direction, actual direction)
 * over the calendar, with the number of releases and the first and last
 * release time, written by a single INSERT ... SELECT ... ON DUPLICATE KEY
 * UPDATE into a table that is never emptied. The directions are SQL CASE
 * expressions over the text columns cast to DECIMAL(18,6); they are
 * modelled with SQL's three-valued logic, and the reading of the text is a
 * parameter, so that their agreement with the service's own classifier,
 * which reads the same text with float(), is a statement to prove and not
 * a definition.
 */
module EventIndex {
  import opened Wrappers
  import opened Classify
  import Text
  import EventEngine

  // ---------------------------------------------- SQL three-valued logic

  /** The truth values of SQL: a comparison with NULL is UNKNOWN, here `Null`. */
  datatype SqlBool = True | False | Null

  function IsNull(a: Option<real>): SqlBool
  {
    if a.None? then True else False
  }

  function Or(p: SqlBool, q: SqlBool): SqlBool
  {
    if p == True || q == True then True
    else if p == Null || q == Null then Null
    else False
  }

  /** `a > b + d`, NULL when either side is NULL. */
  function GreaterThanPlus(a: Option<real>, b: Option<real>, d: real): SqlBool
  {
    if a.None? || b.None? then Null
    else if a.value > b.value + d then True
    else False
  }

  /** `a < b - d`, NULL when either side is NULL. */
  function LessThanMinus(a: Option<real>, b: Option<real>, d: real): SqlBool
  {
    if a.None? || b.None? then Null
    else if a.value < b.value - d then True
    else False
  }

  /** One WHEN ... THEN arm of a CASE expression. */
  datatype When = When(cond: SqlBool, result: Label)

  /** CASE WHEN ... END: the result of the first arm whose condition is TRUE (not NULL), else the ELSE value. */
  function Case(arms: seq<When>, otherwise: Label): (r: Label)
    ensures (forall i :: 0 <= i < |arms| ==> arms[i].cond != True) ==> r == otherwise
    ensures forall i :: 0 <= i < |arms| && arms[i].cond == True && (forall j :: 0 <= j < i ==> arms[j].cond != True) ==> r == arms[i].result
  {
    if |arms| == 0 then otherwise
    else if arms[0].cond == True then arms[0].result
    else
      assert forall i :: 1 <= i < |arms| ==> arms[1..][i - 1] == arms[i];
      Case(arms[1..], otherwise)
  }

  const SqlThreshold: real := 0.0001

  /**
   * The shape shared by the three CASE columns: unknown when either value
   * is missing, `first` when a exceeds b by more than the threshold,
   * `second` when it falls short of b by more than the threshold, and
   * `third` otherwise.
   */
  function CaseDirection(a: Option<real>, b: Option<real>, first: Label, second: Label, third: Label): Label
  {
    Case([When(Or(IsNull(a), IsNull(b)), UNKNOWN),
          When(GreaterThanPlus(a, b, SqlThreshold), first),
          When(LessThanMinus(a, b, SqlThreshold), second)], third)
  }

  /** One calendar row: actual, forecast and previous are the VARCHAR columns, NULL as None. */
  datatype CalendarRow = CalendarRow(eventId: Option<int>, time: int, actual: Option<string>, forecast: Option<string>, previous: Option<string>)

  /** How a side turns one text column into a number; NULL is no number. */
  type Reader = Option<string> -> Option<real>

  /**
   * CAST(col AS DECIMAL(18,6)): NULL stays NULL and any other text is a
   * number, `cast` being the database's reading of it (a numeric prefix,
   * kept to six decimals).
   */
  function SqlCast(cast: string -> real): Reader
  {
    (v: Option<string>) => if v.None? then None else Some(cast(v.value))
  }

  /** forecast_direction, surprise_direction and actual_direction of a row, its columns read by `read`. */
  function RowContext(read: Reader, r: CalendarRow): Context
  {
    Context(CaseDirection(read(r.forecast), read(r.previous), UP, DOWN, FLAT),
            CaseDirection(read(r.actual), read(r.forecast), BEAT, MISS, INLINE),
            CaseDirection(read(r.actual), read(r.previous), UP, DOWN, FLAT))
  }

  /** The service's context of the same row: resolve_event_context of try_float of each column. */
  function ServiceContext(r: CalendarRow): Context
  {
    ResolveEventContext(EventEngine.TryFloat(r.actual), EventEngine.TryFloat(r.forecast), EventEngine.TryFloat(r.previous))
  }

  /** A reader that reads this column as try_float does. */
  predicate ReadsAsService(read: Reader, v: Option<string>)
  {
    read(v) == EventEngine.TryFloat(v)
  }

  /** Each CASE column computes the service's absolute-threshold direction. */
  lemma CaseDirectionIsEventDirection(a: Option<real>, b: Option<real>, first: Label, second: Label, third: Label)
    ensures CaseDirection(a, b, first, second, third) == EventDirection(a, b, first, second, third)
  {
    var arms := [When(Or(IsNull(a), IsNull(b)), UNKNOWN),
                 When(GreaterThanPlus(a, b, SqlThreshold), first),
                 When(LessThanMinus(a, b, SqlThreshold), second)];
    assert arms[1..] == [arms[1], arms[2]];
    assert arms[1..][1..] == [arms[2]];
    assert arms[1..][1..][1..] == [];
  }

  /**
   * The index's directions of a row are the service's resolve_event_context
   * whenever the index reads its three columns as the service does.
   */
  lemma RowContextIsResolved(read: Reader, r: CalendarRow)
    requires ReadsAsService(read, r.actual) && ReadsAsService(read, r.forecast) && ReadsAsService(read, r.previous)
    ensures RowContext(read, r) == ServiceContext(r)
  {
    CaseDirectionIsEventDirection(read(r.forecast), read(r.previous), UP, DOWN, FLAT);
    CaseDirectionIsEventDirection(read(r.actual), read(r.forecast), BEAT, MISS, INLINE);
    CaseDirectionIsEventDirection(read(r.actual), read(r.previous), UP, DOWN, FLAT);
  }

  /** float() cannot read a percentage. */
  lemma PercentUnreadable()
    ensures EventEngine.TryFloat(Some("0.3%")) == None
  {
    var s := "0.3%";
    assert s[..1] == "0";
    Text.ParseFloatRejectsBadFraction(s, 1);
  }

  /**
   * As written, the index and the service read the same text differently:
   * a forecast and a previous of "0.3%", which the database's CAST reads
   * as 0.3 and float() rejects, give the index the key FLAT where the
   * service, looking the release up, asks for UNKNOWN.
   */
  lemma PercentReadingsDisagree(cast: string -> real, r: CalendarRow)
    requires cast("0.3%") == 0.3
    requires r.forecast == Some("0.3%") && r.previous == Some("0.3%")
    ensures RowContext(SqlCast(cast), r).rcd == FLAT
    ensures ServiceContext(r).rcd == UNKNOWN
  {
    PercentUnreadable();
    assert EventEngine.TryFloat(r.forecast) == None;
    var read := SqlCast(cast);
    assert read(r.forecast) == Some(0.3) && read(r.previous) == Some(0.3);
    CaseDirectionIsEventDirection(Some(0.3), Some(0.3), UP, DOWN, FLAT);
  }

  /** Read with try_float, as the service documents it, the index's directions are always the service's. */
  lemma ParsedRowContextIsResolved(r: CalendarRow)
    ensures RowContext(EventEngine.TryFloat, r) == ServiceContext(r)
  {
    RowContextIsResolved(EventEngine.TryFloat, r);
  }

  // ------------------------------------------------------------- GROUP BY

  datatype GroupKey = GroupKey(eventId: int, ctx: Context)

  /** COUNT(*), MIN and MAX of occurrence_time_utc of one group. */
  datatype Group = Group(count: nat, first: int, last: int)

  /** The group a row falls in; rows with a NULL event_id are excluded by the WHERE clause. */
  function KeyOf(read: Reader, r: CalendarRow): Option<GroupKey>
  {
    if r.eventId.None? then None else Some(GroupKey(r.eventId.value, RowContext(read, r)))
  }

  /** A row as the GROUP BY sees it: its group (none for a NULL event_id) and its time. */
  datatype Release = Release(key: Option<GroupKey>, time: int)

  function Releases(read: Reader, rows: seq<CalendarRow>): (rel: seq<Release>)
    ensures |rel| == |rows|
    ensures forall i :: 0 <= i < |rows| ==> rel[i] == Release(KeyOf(read, rows[i]), rows[i].time)
  {
    seq(|rows|, i requires 0 <= i < |rows| => Release(KeyOf(read, rows[i]), rows[i].time))
  }

  function Min(a: int, b: int): int { if a <= b then a else b }
  function Max(a: int, b: int): int { if a >= b then a else b }

  /** The grouped aggregates of the calendar rows. */
  function GroupBy(rows: seq<Release>): map<GroupKey, Group>
  {
    if |rows| == 0 then map[]
    else
      var m := GroupBy(rows[..|rows| - 1]);
      var r := rows[|rows| - 1];
      match r.key
      case None => m
      case Some(k) =>
        if k in m then m[k := Group(m[k].count + 1, Min(m[k].first, r.time), Max(m[k].last, r.time))]
        else m[k := Group(1, r.time, r.time)]
  }

  predicate InGroup(rows: seq<Release>, i: int, k: GroupKey)
    requires 0 <= i < |rows|
  {
    rows[i].key == Some(k)
  }

  /** The number of rows of group k. */
  function Members(rows: seq<Release>, k: GroupKey): nat
  {
    if |rows| == 0 then 0
    else Members(rows[..|rows| - 1], k) + (if InGroup(rows, |rows| - 1, k) then 1 else 0)
  }

  /** A group without members holds no row. */
  lemma {:induction false} NoMembers(rows: seq<Release>, k: GroupKey)
    requires Members(rows, k) == 0
    ensures forall i :: 0 <= i < |rows| ==> !InGroup(rows, i, k)
  {
    if |rows| > 0 {
      var init := rows[..|rows| - 1];
      NoMembers(init, k);
      assert forall i :: 0 <= i < |init| ==> InGroup(rows, i, k) == InGroup(init, i, k);
    }
  }

  /** The groups are exactly the keys of rows with an event_id, and COUNT(*) is the number of rows in the group. */
  lemma {:induction false} GroupCounts(rows: seq<Release>, k: GroupKey)
    ensures k in GroupBy(rows) <==> Members(rows, k) > 0
    ensures k in GroupBy(rows) ==> GroupBy(rows)[k].count == Members(rows, k)
  {
    if |rows| > 0 {
      GroupCounts(rows[..|rows| - 1], k);
    }
  }

  /** MIN and MAX bound every time in the group. */
  lemma {:induction false} GroupBounds(rows: seq<Release>, k: GroupKey)
    ensures k in GroupBy(rows) ==>
      forall i :: 0 <= i < |rows| && InGroup(rows, i, k) ==> GroupBy(rows)[k].first <= rows[i].time <= GroupBy(rows)[k].last
  {
    if |rows| > 0 && k in GroupBy(rows) {
      var init := rows[..|rows| - 1];
      var n := |rows| - 1;
      GroupBounds(init, k);
      GroupCounts(init, k);
      var g := GroupBy(rows)[k];
      if k !in GroupBy(init) {
        NoMembers(init, k);
      }
      forall i | 0 <= i < |rows| && InGroup(rows, i, k) ensures g.first <= rows[i].time <= g.last {
        if i < n {
          assert InGroup(init, i, k);
        }
      }
    }
  }

  /** MIN and MAX are times of rows of the group. */
  lemma {:induction false} GroupAttained(rows: seq<Release>, k: GroupKey)
    ensures k in GroupBy(rows) ==>
      && (exists i :: 0 <= i < |rows| && InGroup(rows, i, k) && rows[i].time == GroupBy(rows)[k].first)
      && (exists i :: 0 <= i < |rows| && InGroup(rows, i, k) && rows[i].time == GroupBy(rows)[k].last)
  {
    if |rows| > 0 {
      var init := rows[..|rows| - 1];
      var n := |rows| - 1;
      GroupAttained(init, k);
      if k in GroupBy(init) {
        var g := GroupBy(init)[k];
        var i1 :| 0 <= i1 < n && InGroup(init, i1, k) && init[i1].time == g.first;
        var i2 :| 0 <= i2 < n && InGroup(init, i2, k) && init[i2].time == g.last;
        assert rows[i1] == init[i1] && rows[i2] == init[i2];
        assert InGroup(rows, i1, k) && InGroup(rows, i2, k);
      }
    }
  }

  /**
   * The groups are exactly the keys of rows with an event_id, COUNT(*) is
   * the number of rows in the group, MIN and MAX are the earliest and the
   * latest time among them.
   */
  lemma GroupByMeaning(rows: seq<Release>, k: GroupKey)
    ensures k in GroupBy(rows) <==> Members(rows, k) > 0
    ensures k in GroupBy(rows) ==>
      && GroupBy(rows)[k].count == Members(rows, k)
      && (forall i :: 0 <= i < |rows| && InGroup(rows, i, k) ==> GroupBy(rows)[k].first <= rows[i].time <= GroupBy(rows)[k].last)
      && (exists i :: 0 <= i < |rows| && InGroup(rows, i, k) && rows[i].time == GroupBy(rows)[k].first)
      && (exists i :: 0 <= i < |rows| && InGroup(rows, i, k) && rows[i].time == GroupBy(rows)[k].last)
  {
    GroupCounts(rows, k);
    GroupBounds(rows, k);
    GroupAttained(rows, k);
  }

  /** The groups the statement writes: all of them, or HAVING COUNT(*) > 1 when ONLY_RECURRING is set. */
  predicate Written(groups: map<GroupKey, Group>, onlyRecurring: bool, k: GroupKey)
  {
    k in groups && (!onlyRecurring || groups[k].count > 1)
  }

  /**
   * The index table after one run: the statement's groups of the calendar
   * rows are upserted (ON DUPLICATE KEY UPDATE) into the table as it was,
   * which is never emptied, so a key the run does not write keeps its row.
   */
  function ContextIndex(existing: map<GroupKey, Group>, rows: seq<CalendarRow>, onlyRecurring: bool, read: Reader): (idx: map<GroupKey, Group>)
    ensures forall k :: k in idx <==> k in existing || Written(GroupBy(Releases(read, rows)), onlyRecurring, k)
    ensures forall k :: Written(GroupBy(Releases(read, rows)), onlyRecurring, k) ==> idx[k] == GroupBy(Releases(read, rows))[k]
    ensures forall k :: k in existing && !Written(GroupBy(Releases(read, rows)), onlyRecurring, k) ==> idx[k] == existing[k]
  {
    var groups := GroupBy(Releases(read, rows));
    existing + map k | k in groups && Written(groups, onlyRecurring, k) :: groups[k]
  }

  /** The rows of a group: an event_id and the service's context of their values, when the index reads them as the service does. */
  lemma InGroupMeaning(read: Reader, rows: seq<CalendarRow>, i: int, k: GroupKey)
    requires 0 <= i < |rows|
    requires ReadsAsService(read, rows[i].actual) && ReadsAsService(read, rows[i].forecast) && ReadsAsService(read, rows[i].previous)
    ensures InGroup(Releases(read, rows), i, k) <==> rows[i].eventId == Some(k.eventId) && k.ctx == ServiceContext(rows[i])
  {
    RowContextIsResolved(read, rows[i]);
  }

  /** With ONLY_RECURRING, a first run into an empty table indexes exactly the keys of two or more releases. */
  lemma RecurringGroups(rows: seq<CalendarRow>, read: Reader, k: GroupKey)
    ensures k in ContextIndex(map[], rows, true, read) <==> Members(Releases(read, rows), k) > 1
  {
    GroupCounts(Releases(read, rows), k);
  }

  /**
   * A key of the table that no calendar row has any longer (its release
   * re-read with other values, say) keeps its old row and counts.
   */
  lemma StaleGroupKept(existing: map<GroupKey, Group>, rows: seq<CalendarRow>, onlyRecurring: bool, read: Reader, k: GroupKey)
    requires k in existing && Members(Releases(read, rows), k) == 0
    ensures k in ContextIndex(existing, rows, onlyRecurring, read)
    ensures ContextIndex(existing, rows, onlyRecurring, read)[k] == existing[k]
  {
    GroupCounts(Releases(read, rows), k);
  }

  /** A key some run writes carries this run's count, whatever the table held before. */
  lemma UpsertOverrides(existing: map<GroupKey, Group>, rows: seq<CalendarRow>, onlyRecurring: bool, read: Reader, k: GroupKey)
    requires Members(Releases(read, rows), k) > (if onlyRecurring then 1 else 0)
    ensures k in ContextIndex(existing, rows, onlyRecurring, read)
    ensures ContextIndex(existing, rows, onlyRecurring, read)[k].count == Members(Releases(read, rows), k)
  {
    GroupCounts(Releases(read, rows), k);
  }

  /** A row without an event_id contributes to no group. */
  lemma NullEventIgnored(read: Reader, rows: seq<CalendarRow>, r: CalendarRow)
    requires r.eventId.None?
    ensures GroupBy(Releases(read, rows + [r])) == GroupBy(Releases(read, rows))
  {
    var rel := Releases(read, rows + [r]);
    assert rel[..|rel| - 1] == Releases(read, rows) by {
      assert forall i :: 0 <= i < |rows| ==> (rows + [r])[i] == rows[i];
    }
    assert rel[|rel| - 1].key.None? by {
      assert (rows + [r])[|rows|] == r;
    }
  }
}
