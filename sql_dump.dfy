/**
 * The SQL dump reader and writer of the cyclical-events tool
 * (23/cal_cyclical_events.py).
 *
 * The reader takes the VALUES block of `INSERT INTO brain_calendar`: it
 * cuts the block into rows at the commas that sit outside quotes and
 * outside parentheses, cuts every row into fields at the commas outside
 * quotes, reads each field as NULL, a quoted string, a number or a bare
 * string, and keeps only the rows with one field per column. A quote
 * preceded by a backslash does not open or close a string.
 *
 * The writer renders a value as NULL, a number or a quoted string with
 * quotes and backslashes doubled; a row is its values joined by commas
 * in parentheses, and rows are joined by ",\n".
 *
 * Both scanners are left folds over the characters, written here as
 * functions on the prefix read so far (`FieldsAfter`, `RowsAfter`), so that
 * the loops of the reader are proved against them.
 */
module SqlDump {
  import opened Wrappers
  import opened Text

  /** A field of a row as the reader returns it: None, a float, an int or a str. */
  datatype SqlValue = Null | IntValue(i: int) | FloatValue(r: real) | TextValue(s: string)

  /** The nineteen columns of brain_calendar, Id through FullDate. */
  const Columns: nat := 19

  // ------------------------------------------------------- field splitting

  /** The field splitter between two characters: the fields cut, the current one, inside quotes or not. */
  datatype FieldScan = FieldScan(fields: seq<string>, current: string, inQuotes: bool)

  const FieldStart := FieldScan([], "", false)

  /** The last character taken into the current field is a backslash. */
  predicate EndsInBackslash(current: string)
  {
    |current| > 0 && current[|current| - 1] == '\\'
  }

  /** One character of the field splitter. */
  function FieldStep(st: FieldScan, c: char): FieldScan
  {
    if c == '\'' && !EndsInBackslash(st.current) then
      st.(current := st.current + [c], inQuotes := !st.inQuotes)
    else if c == ',' && !st.inQuotes then
      FieldScan(st.fields + [Strip(st.current)], "", st.inQuotes)
    else
      st.(current := st.current + [c])
  }

  /** The field splitter after reading s. */
  function FieldsAfter(st: FieldScan, s: string): FieldScan
  {
    if |s| == 0 then st else FieldStep(FieldsAfter(st, s[..|s| - 1]), s[|s| - 1])
  }

  /** The last field is kept only when some character is left over. */
  function FinishFields(st: FieldScan): seq<string>
  {
    if |st.current| > 0 then st.fields + [Strip(st.current)] else st.fields
  }

  function SplitFields(s: string): seq<string>
  {
    FinishFields(FieldsAfter(FieldStart, s))
  }

  // ------------------------------------------------------- field cleaning

  predicate IsQuoted(v: string)
  {
    |v| > 0 && v[0] == '\'' && v[|v| - 1] == '\''
  }

  /**
   * One stripped field as a value: NULL in any case is None, a quoted
   * field loses its outer quotes (a lone quote leaves ""), a field with a
   * '.' is read by float() and any other by int(), and a field neither
   * accepts stays the raw string.
   */
  function Clean(v: string): (r: SqlValue)
    ensures r.Null? <==> Upper(v) == "NULL"
    ensures r.IntValue? ==> '.' !in v && !IsQuoted(v) && ParseInt(v) == Some(r.i)
    ensures r.FloatValue? ==> '.' in v && !IsQuoted(v) && ParseFloat(v) == Some(r.r)
    ensures r.TextValue? && !IsQuoted(v) ==> r.s == v
  {
    if Upper(v) == "NULL" then Null
    else if IsQuoted(v) then TextValue(if |v| >= 2 then v[1..|v| - 1] else "")
    else if '.' in v then
      match ParseFloat(v)
      case Some(x) => FloatValue(x)
      case None => TextValue(v)
    else
      match ParseInt(v)
      case Some(i) => IntValue(i)
      case None => TextValue(v)
  }

  function CleanAll(vs: seq<string>): (r: seq<SqlValue>)
    ensures |r| == |vs|
  {
    seq(|vs|, k requires 0 <= k < |vs| => Clean(vs[k]))
  }

  /** parse_sql_values. */
  function ParseValues(s: string): seq<SqlValue>
  {
    CleanAll(SplitFields(s))
  }

  // --------------------------------------------------------- row splitting

  /**
   * The row splitter between two characters: the rows cut, the current
   * one, inside quotes or not, the parenthesis depth, and whether the
   * character just read was a backslash (the splitter looks at the
   * previous character of the block, wherever it went).
   */
  datatype RowScan = RowScan(rows: seq<string>, current: string, inQuotes: bool, depth: int, afterBackslash: bool)

  const RowStart := RowScan([], "", false, 0, false)

  /** `( ... )` with its parentheses taken off; anything else unchanged. */
  function Unwrap(row: string): string
  {
    if |row| >= 2 && row[0] == '(' && row[|row| - 1] == ')' then row[1..|row| - 1] else row
  }

  /** One character of the row splitter. */
  function NextQuotes(st: RowScan, c: char): bool
  {
    if c == '\'' && !st.afterBackslash then !st.inQuotes else st.inQuotes
  }

  function NextDepth(depth: int, c: char, inQuotes: bool): int
  {
    if c == '(' && !inQuotes then depth + 1 else if c == ')' && !inQuotes then depth - 1 else depth
  }

  /** The rows after a cut: the current row, stripped and unwrapped, unless it is blank. */
  function CutRow(rows: seq<string>, current: string): seq<string>
  {
    var row := Strip(current);
    if |row| > 0 then rows + [Unwrap(row)] else rows
  }

  function RowStep(st: RowScan, c: char): RowScan
  {
    var q := NextQuotes(st, c);
    var d := NextDepth(st.depth, c, q);
    if c == ',' && d == 0 && !q then
      RowScan(CutRow(st.rows, st.current), "", q, d, false)
    else
      RowScan(st.rows, st.current + [c], q, d, c == '\\')
  }

  function RowsAfter(st: RowScan, s: string): RowScan
  {
    if |s| == 0 then st else RowStep(RowsAfter(st, s[..|s| - 1]), s[|s| - 1])
  }

  /** The last row is kept only when it is wrapped in parentheses. */
  function LastRows(rows: seq<string>, current: string): seq<string>
  {
    var row := Strip(current);
    if |current| > 0 && |row| >= 2 && row[0] == '(' && row[|row| - 1] == ')' then
      rows + [row[1..|row| - 1]]
    else
      rows
  }

  function FinishRows(st: RowScan): seq<string>
  {
    LastRows(st.rows, st.current)
  }

  function SplitRows(block: string): seq<string>
  {
    FinishRows(RowsAfter(RowStart, block))
  }

  /** The rows with one field per column, in order. */
  function KeepComplete(rows: seq<seq<SqlValue>>): (r: seq<seq<SqlValue>>)
    ensures |r| <= |rows|
    ensures forall k :: 0 <= k < |r| ==> |r[k]| == Columns
  {
    if |rows| == 0 then []
    else
      var last := rows[|rows| - 1];
      KeepComplete(rows[..|rows| - 1]) + (if |last| == Columns then [last] else [])
  }

  function ParseAll(rows: seq<string>): (r: seq<seq<SqlValue>>)
    ensures |r| == |rows|
  {
    seq(|rows|, k requires 0 <= k < |rows| => ParseValues(rows[k]))
  }

  /** The table extract_data_from_sql builds from a VALUES block. */
  function ReadRows(block: string): seq<seq<SqlValue>>
  {
    KeepComplete(ParseAll(SplitRows(block)))
  }

  // ---------------------------------------------------------------- writer

  /** The body of a quoted string: quotes doubled, then backslashes doubled. */
  function Escape(s: string): string
  {
    Replace(Replace(s, '\'', "''"), '\\', "\\\\")
  }

  /**
   * generate_sql_value. None and NaN are NULL; numbers are str() of the
   * number, where str() of a float is Python's shortest repr, given here
   * as `floatText`.
   */
  function Written(v: SqlValue, floatText: real -> string): string
  {
    match v
    case Null => "NULL"
    case IntValue(i) => IntToString(i)
    case FloatValue(x) => floatText(x)
    case TextValue(s) => "'" + Escape(s) + "'"
  }

  function WrittenRow(row: seq<SqlValue>, floatText: real -> string): (r: seq<string>)
    ensures |r| == |row|
  {
    seq(|row|, k requires 0 <= k < |row| => Written(row[k], floatText))
  }

  /** One line of the dump: the written values in parentheses. */
  function RowLine(fields: seq<string>): string
  {
    "(" + Join(fields, ',') + ")"
  }

  /** What the writer puts between two lines. */
  const LineBreak: string := ",\n"

  function JoinLines(lines: seq<string>): string
  {
    if |lines| == 0 then ""
    else if |lines| == 1 then lines[0]
    else lines[0] + LineBreak + JoinLines(lines[1..])
  }

  function WrittenRows(rows: seq<seq<SqlValue>>, floatText: real -> string): (r: seq<seq<string>>)
    ensures |r| == |rows|
  {
    seq(|rows|, k requires 0 <= k < |rows| => WrittenRow(rows[k], floatText))
  }

  function LinesOf(rows: seq<seq<string>>): (r: seq<string>)
    ensures |r| == |rows|
  {
    seq(|rows|, k requires 0 <= k < |rows| => RowLine(rows[k]))
  }

  /** The VALUES block the writer produces for the rows. */
  function Dump(rows: seq<seq<SqlValue>>, floatText: real -> string): string
  {
    JoinLines(LinesOf(WrittenRows(rows, floatText)))
  }

  // ------------------------------------------------------------- the loops

  /** parse_sql_values: the field loop, then the cleaning loop. */
  method ParseSqlValues(s: string) returns (values: seq<SqlValue>)
    ensures values == ParseValues(s)
  {
    var fields := SplitSqlFields(s);
    values := [];
    for i := 0 to |fields|
      invariant values == CleanAll(fields[..i])
    {
      assert CleanAll(fields[..i + 1]) == CleanAll(fields[..i]) + [Clean(fields[i])] by {
        assert fields[..i + 1] == fields[..i] + [fields[i]];
        CleanAllSnoc(fields[..i], fields[i]);
      }
      values := values + [Clean(fields[i])];
    }
    assert fields[..|fields|] == fields;
  }

  lemma CleanAllSnoc(vs: seq<string>, v: string)
    ensures CleanAll(vs + [v]) == CleanAll(vs) + [Clean(v)]
  {
    var a, b := CleanAll(vs + [v]), CleanAll(vs) + [Clean(v)];
    forall k | 0 <= k < |a|
      ensures a[k] == b[k]
    {
      if k < |vs| {
        assert (vs + [v])[k] == vs[k];
      }
    }
  }

  /** The character loop of parse_sql_values and the last field after it. */
  method SplitSqlFields(s: string) returns (fields: seq<string>)
    ensures fields == SplitFields(s)
  {
    fields := [];
    var current: string := "";
    var inQuotes := false;
    for i := 0 to |s|
      invariant FieldScan(fields, current, inQuotes) == FieldsAfter(FieldStart, s[..i])
    {
      ghost var before := FieldScan(fields, current, inQuotes);
      var c := s[i];
      assert FieldsAfter(FieldStart, s[..i + 1]) == FieldStep(before, c) by {
        assert s[..i + 1][..i] == s[..i];
      }
      if c == '\'' && (|current| == 0 || current[|current| - 1] != '\\') {
        inQuotes := !inQuotes;
      } else if c == ',' && !inQuotes {
        fields := fields + [Strip(current)];
        current := "";
        continue;
      }
      current := current + [c];
    }
    assert s[..|s|] == s;
    if |current| > 0 {
      fields := fields + [Strip(current)];
    }
  }

  /** One character of the row loop of extract_data_from_sql; `afterBackslash` says whether the previous character was a backslash. */
  method RowChar(rows: seq<string>, current: string, inQuotes: bool, depth: int, afterBackslash: bool, c: char)
    returns (rows': seq<string>, current': string, inQuotes': bool, depth': int)
    ensures RowScan(rows', current', inQuotes', depth', c == '\\')
         == RowStep(RowScan(rows, current, inQuotes, depth, afterBackslash), c)
  {
    rows', current', inQuotes', depth' := rows, current, inQuotes, depth;
    if c == '\'' && !afterBackslash {
      inQuotes' := !inQuotes';
    }
    if c == '(' && !inQuotes' {
      depth' := depth' + 1;
    } else if c == ')' && !inQuotes' {
      depth' := depth' - 1;
    }
    if c == ',' && depth' == 0 && !inQuotes' {
      var row := Strip(current);
      if |row| > 0 {
        var unwrapped := row;
        if |row| >= 2 && row[0] == '(' && row[|row| - 1] == ')' {
          unwrapped := row[1..|row| - 1];
        }
        rows' := rows' + [unwrapped];
      }
      current' := "";
    } else {
      current' := current' + [c];
    }
  }

  /** The row loop of extract_data_from_sql: the block cut into rows, outer parentheses taken off. */
  method SplitRowStrings(block: string) returns (rows: seq<string>)
    ensures rows == SplitRows(block)
  {
    rows := [];
    var current: string := "";
    var inQuotes := false;
    var depth := 0;
    for i := 0 to |block|
      invariant RowScan(rows, current, inQuotes, depth, i > 0 && block[i - 1] == '\\') == RowsAfter(RowStart, block[..i])
    {
      RowsAfterSnoc(RowStart, block[..i], block[i]);
      assert block[..i] + [block[i]] == block[..i + 1];
      rows, current, inQuotes, depth := RowChar(rows, current, inQuotes, depth, i > 0 && block[i - 1] == '\\', block[i]);
    }
    ghost var last := RowScan(rows, current, inQuotes, depth, |block| > 0 && block[|block| - 1] == '\\');
    assert last == RowsAfter(RowStart, block) by {
      assert block[..|block|] == block;
    }
    rows := LastRow(rows, current);
    assert rows == FinishRows(last);
  }

  /** After the loop of extract_data_from_sql: a last row left over is kept when it is wrapped in parentheses. */
  method LastRow(rows: seq<string>, current: string) returns (rows': seq<string>)
    ensures rows' == LastRows(rows, current)
  {
    rows' := rows;
    if |current| > 0 {
      var row := Strip(current);
      if |row| >= 2 && row[0] == '(' && row[|row| - 1] == ')' {
        rows' := rows' + [row[1..|row| - 1]];
      }
    }
  }

  /** extract_data_from_sql from the VALUES block on: the rows cut, parsed, and the complete ones kept. */
  method ExtractRows(block: string) returns (data: seq<seq<SqlValue>>)
    ensures data == ReadRows(block)
    ensures forall k :: 0 <= k < |data| ==> |data[k]| == Columns
  {
    var rows := SplitRowStrings(block);
    data := [];
    for i := 0 to |rows|
      invariant data == KeepComplete(ParseAll(rows)[..i])
    {
      assert ParseAll(rows)[..i + 1][..i] == ParseAll(rows)[..i];
      var row := ParseSqlValues(rows[i]);
      if |row| == Columns {
        data := data + [row];
      }
    }
    assert ParseAll(rows)[..|rows|] == ParseAll(rows);
  }

  // ---------------------------------------------------- the filter, stated

  /** A row survives the filter exactly when it has one field per column. */
  lemma {:induction false} KeepCompleteMembers(rows: seq<seq<SqlValue>>, row: seq<SqlValue>)
    ensures row in KeepComplete(rows) <==> row in rows && |row| == Columns
  {
    if |rows| > 0 {
      var init := rows[..|rows| - 1];
      KeepCompleteMembers(init, row);
      assert rows == init + [rows[|rows| - 1]];
    }
  }

  /** Rows that all have one field per column are all kept, in order. */
  lemma {:induction false} KeepCompleteKeepsAll(rows: seq<seq<SqlValue>>)
    requires forall k :: 0 <= k < |rows| ==> |rows[k]| == Columns
    ensures KeepComplete(rows) == rows
  {
    if |rows| > 0 {
      KeepCompleteKeepsAll(rows[..|rows| - 1]);
      assert rows == rows[..|rows| - 1] + [rows[|rows| - 1]];
    }
  }

  // ------------------------------------------------------ the escaped body

  /** The reading a MySQL server gives a quoted body: '' is one quote, \\ one backslash. */
  function Unescape(e: string): string
  {
    if |e| >= 2 && e[0] == '\'' && e[1] == '\'' then "'" + Unescape(e[2..])
    else if |e| >= 2 && e[0] == '\\' && e[1] == '\\' then "\\" + Unescape(e[2..])
    else if |e| == 0 then ""
    else [e[0]] + Unescape(e[1..])
  }

  /** The escaped body of a string s, one character after the other. */
  lemma {:induction false} EscapeCons(s: string)
    requires |s| > 0
    ensures Escape(s) == (if s[0] == '\'' then "''" else if s[0] == '\\' then "\\\\" else [s[0]]) + Escape(s[1..])
  {
    var head := if s[0] == '\'' then "''" else [s[0]];
    assert Replace(s, '\'', "''") == head + Replace(s[1..], '\'', "''");
    ReplaceAppend(head, Replace(s[1..], '\'', "''"), '\\', "\\\\");
    if s[0] == '\'' {
      assert Replace(head, '\\', "\\\\") == "''" by {
        assert head[1..] == "'";
        assert Replace(head[1..], '\\', "\\\\") == "'" by { assert head[1..][1..] == ""; }
      }
    } else {
      assert Replace(head, '\\', "\\\\") == (if s[0] == '\\' then "\\\\" else [s[0]]) by {
        assert head[1..] == "";
      }
    }
  }

  /** The server reads back the string the writer quoted. */
  lemma {:induction false} UnescapeEscape(s: string)
    ensures Unescape(Escape(s)) == s
  {
    if |s| > 0 {
      EscapeCons(s);
      UnescapeEscape(s[1..]);
      var e := Escape(s);
      if s[0] == '\'' {
        assert e[2..] == Escape(s[1..]);
      } else if s[0] == '\\' {
        assert e[2..] == Escape(s[1..]);
      } else {
        assert e[1..] == Escape(s[1..]);
      }
      assert s == [s[0]] + s[1..];
    } else {
      assert Escape(s) == "";
    }
  }

  /** A string with no quote and no backslash is written as it is. */
  lemma {:induction false} EscapePlain(s: string)
    requires forall k :: 0 <= k < |s| ==> s[k] != '\'' && s[k] != '\\'
    ensures Escape(s) == s
  {
    if |s| > 0 {
      EscapeCons(s);
      EscapePlain(s[1..]);
      assert s == [s[0]] + s[1..];
    } else {
      assert Escape(s) == "";
    }
  }

  // -------------------------------------------------------- the round trip

  /** A character a bare field of the dump may hold. */
  predicate Plain(c: char)
  {
    c != ',' && c != '\'' && c != '(' && c != ')' && c != '\\'
  }

  /**
   * A field as the writer leaves it for the reader: a bare token with no
   * whitespace at its ends, or a quoted body with no quote and no backslash.
   */
  predicate Token(t: string)
  {
    && |t| > 0
    && if t[0] == '\'' then
         |t| >= 2 && t[|t| - 1] == '\'' && forall k :: 1 <= k < |t| - 1 ==> t[k] != '\'' && t[k] != '\\'
       else
         !IsSpace(t[0]) && !IsSpace(t[|t| - 1]) && forall k :: 0 <= k < |t| ==> Plain(t[k])
  }

  predicate Tokens(ts: seq<string>)
  {
    forall k :: 0 <= k < |ts| ==> Token(ts[k])
  }

  /**
   * A value the reader gets back from its written form: a string with no
   * quote and no backslash, or a float whose text is a bare decimal token.
   */
  predicate Writable(v: SqlValue, floatText: real -> string)
  {
    match v
    case Null => true
    case IntValue(_) => true
    case FloatValue(x) =>
      var t := floatText(x);
      Token(t) && t[0] != '\'' && '.' in t && ParseFloat(t) == Some(x) && Upper(t) != "NULL"
    case TextValue(s) => forall k :: 0 <= k < |s| ==> s[k] != '\'' && s[k] != '\\'
  }

  lemma StripToken(t: string)
    requires Token(t)
    ensures Strip(t) == t
  {
    StripUnchanged(t);
  }

  lemma IntToStringChars(i: int)
    ensures forall k :: 0 <= k < |IntToString(i)| ==> IsDigit(IntToString(i)[k]) || IntToString(i)[k] == '-'
  {
    if i < 0 {
      var d := NatToString(-i);
      forall k | 0 <= k < |IntToString(i)|
        ensures IsDigit(IntToString(i)[k]) || IntToString(i)[k] == '-'
      {
        if k > 0 {
          assert IntToString(i)[k] == d[k - 1];
        }
      }
    }
  }

  /** An int is written as a bare token that int() reads back. */
  lemma CleanWrittenInt(i: int)
    ensures Token(IntToString(i))
    ensures Clean(IntToString(i)) == IntValue(i)
  {
    var t := IntToString(i);
    assert Token(t) by {
      IntToStringChars(i);
    }
    assert Upper(t) != "NULL" by {
      IntToStringChars(i);
      assert Upper(t)[0] == UpperChar(t[0]);
      assert "NULL"[0] == 'N';
    }
    assert !IsQuoted(t) && '.' !in t by {
      IntToStringChars(i);
    }
    assert ParseInt(t) == Some(i) by {
      ParseIntOfIntToString(i);
    }
  }

  /** A string with no quote and no backslash is written in quotes and read back. */
  lemma CleanWrittenText(str: string)
    requires forall k :: 0 <= k < |str| ==> str[k] != '\'' && str[k] != '\\'
    ensures Token("'" + Escape(str) + "'")
    ensures Clean("'" + Escape(str) + "'") == TextValue(str)
  {
    EscapePlain(str);
    var t := "'" + str + "'";
    assert t[1..|t| - 1] == str;
    assert Upper(t)[0] == UpperChar(t[0]);
    assert Upper(t) != "NULL" by { assert "NULL"[0] == 'N'; }
    assert IsQuoted(t);
  }

  /** Every written value is a field the reader cleans back to the value. */
  lemma CleanWritten(v: SqlValue, floatText: real -> string)
    requires Writable(v, floatText)
    ensures Token(Written(v, floatText))
    ensures Clean(Written(v, floatText)) == v
  {
    match v
    case Null =>
      assert Upper("NULL") == "NULL";
    case IntValue(i) =>
      CleanWrittenInt(i);
    case FloatValue(x) =>
    case TextValue(str) =>
      CleanWrittenText(str);
  }

  // the field splitter over a token list

  lemma {:induction false} FieldsAfterAppend(st: FieldScan, a: string, b: string)
    ensures FieldsAfter(st, a + b) == FieldsAfter(FieldsAfter(st, a), b)
  {
    if |b| == 0 {
      assert a + b == a;
    } else {
      FieldsAfterAppend(st, a, b[..|b| - 1]);
      assert (a + b)[..|a + b| - 1] == a + b[..|b| - 1];
    }
  }

  /** Characters that neither open a string nor cut a field go into the current field. */
  lemma {:induction false} FieldsAfterPlain(st: FieldScan, u: string)
    requires forall k :: 0 <= k < |u| ==> u[k] != '\'' && (u[k] == ',' ==> st.inQuotes)
    ensures FieldsAfter(st, u) == st.(current := st.current + u)
  {
    if |u| > 0 {
      FieldsAfterPlain(st, u[..|u| - 1]);
      assert st.current + u[..|u| - 1] + [u[|u| - 1]] == st.current + u;
    }
  }

  lemma FieldsAfterToken(st: FieldScan, t: string)
    requires st.current == "" && !st.inQuotes && Token(t)
    ensures FieldsAfter(st, t) == st.(current := t)
  {
    if t[0] == '\'' {
      var body := t[1..|t| - 1];
      assert t == "'" + body + "'";
      var open := FieldsAfter(st, "'");
      assert open == FieldScan(st.fields, "'", true) by {
        assert "'"[..0] == "" && "'"[0] == '\'';
        assert FieldsAfter(st, "") == st;
      }
      FieldsAfterPlain(open, body);
      FieldsAfterAppend(st, "'", body);
      FieldsAfterAppend(st, "'" + body, "'");
      assert ("'" + body + "'")[..|t| - 1] == "'" + body;
      var inner := "'" + body;
      assert inner[|inner| - 1] != '\\' by {
        if |body| > 0 {
          assert inner[|inner| - 1] == t[|t| - 2];
        }
      }
    } else {
      FieldsAfterPlain(st, t);
    }
  }

  lemma TokensTail(ts: seq<string>)
    requires |ts| >= 1 && Tokens(ts)
    ensures Tokens(ts[1..])
  {
    forall k | 0 <= k < |ts| - 1
      ensures Token(ts[1..][k])
    {
      assert ts[1..][k] == ts[k + 1];
    }
  }

  lemma PrefixShift(fields: seq<string>, ts: seq<string>)
    requires |ts| >= 2
    ensures fields + [ts[0]] + ts[1..][..|ts| - 2] == fields + ts[..|ts| - 1]
  {
    assert [ts[0]] + ts[1..][..|ts| - 2] == ts[..|ts| - 1];
  }

  /** A token and the comma after it make one field. */
  lemma FieldsAfterCut(st: FieldScan, t: string)
    requires st.current == "" && !st.inQuotes && Token(t)
    ensures FieldsAfter(st, t + [',']) == FieldScan(st.fields + [t], "", false)
  {
    FieldsAfterToken(st, t);
    StripToken(t);
    FieldsAfterAppend(st, t, [',']);
    assert (t + [','])[..|t|] == t;
  }

  lemma {:induction false} FieldsAfterJoin(st: FieldScan, ts: seq<string>)
    requires st.current == "" && !st.inQuotes && |ts| >= 1 && Tokens(ts)
    ensures FieldsAfter(st, Join(ts, ',')) == FieldScan(st.fields + ts[..|ts| - 1], ts[|ts| - 1], false)
    decreases |ts|
  {
    if |ts| == 1 {
      FieldsAfterToken(st, ts[0]);
    } else {
      var rest := ts[1..];
      var cut := FieldScan(st.fields + [ts[0]], "", false);
      FieldsAfterCut(st, ts[0]);
      var tail := FieldsAfter(cut, Join(rest, ','));
      assert tail == FieldScan(cut.fields + rest[..|rest| - 1], rest[|rest| - 1], false) by {
        TokensTail(ts);
        FieldsAfterJoin(cut, rest);
      }
      assert FieldsAfter(st, Join(ts, ',')) == tail by {
        assert Join(ts, ',') == ts[0] + [','] + Join(rest, ',');
        FieldsAfterAppend(st, ts[0] + [','], Join(rest, ','));
      }
      PrefixShift(st.fields, ts);
    }
  }

  /** Splitting the written fields gives the fields back, commas inside strings included. */
  lemma SplitFieldsOfJoin(ts: seq<string>)
    requires Tokens(ts)
    ensures SplitFields(Join(ts, ',')) == ts
  {
    if |ts| > 0 {
      var end := FieldsAfter(FieldStart, Join(ts, ','));
      FinishJoined(ts, end);
    }
  }

  /** The field left open at the end of a written row is its last value. */
  lemma FinishJoined(ts: seq<string>, end: FieldScan)
    requires |ts| > 0 && Tokens(ts)
    requires end == FieldsAfter(FieldStart, Join(ts, ','))
    ensures FinishFields(end) == ts
  {
    assert end == FieldScan(ts[..|ts| - 1], ts[|ts| - 1], false) by {
      FieldsAfterJoin(FieldStart, ts);
      assert FieldStart.fields + ts[..|ts| - 1] == ts[..|ts| - 1];
    }
    FinishToken(ts[..|ts| - 1], ts[|ts| - 1]);
    assert ts[..|ts| - 1] + [ts[|ts| - 1]] == ts;
  }

  /** A token left as the current field is taken as the last field, unchanged. */
  lemma FinishToken(fields: seq<string>, t: string)
    requires Token(t)
    ensures FinishFields(FieldScan(fields, t, false)) == fields + [t]
  {
    StripToken(t);
  }

  /** parse_sql_values reads a written row back to its values. */
  lemma ParseValuesOfWritten(row: seq<SqlValue>, floatText: real -> string)
    requires forall k :: 0 <= k < |row| ==> Writable(row[k], floatText)
    ensures ParseValues(Join(WrittenRow(row, floatText), ',')) == row
  {
    var ts := WrittenRow(row, floatText);
    forall k | 0 <= k < |row|
      ensures Token(ts[k]) && Clean(ts[k]) == row[k]
    {
      CleanWritten(row[k], floatText);
    }
    SplitFieldsOfJoin(ts);
  }

  // the row splitter over a dump

  lemma {:induction false} RowsAfterAppend(st: RowScan, a: string, b: string)
    ensures RowsAfter(st, a + b) == RowsAfter(RowsAfter(st, a), b)
  {
    if |b| == 0 {
      assert a + b == a;
    } else {
      RowsAfterAppend(st, a, b[..|b| - 1]);
      assert (a + b)[..|a + b| - 1] == a + b[..|b| - 1];
    }
  }

  /** Characters that change neither quotes nor depth nor cut a row go into the current row. */
  lemma {:induction false} RowsAfterPlain(st: RowScan, u: string)
    requires !st.afterBackslash
    requires forall k :: 0 <= k < |u| ==> u[k] != '\'' && u[k] != '\\' && (!st.inQuotes ==> Plain(u[k]))
    ensures RowsAfter(st, u) == st.(current := st.current + u)
  {
    if |u| > 0 {
      RowsAfterPlain(st, u[..|u| - 1]);
      assert st.current + u[..|u| - 1] + [u[|u| - 1]] == st.current + u;
    }
  }

  lemma RowsAfterToken(st: RowScan, t: string)
    requires !st.inQuotes && !st.afterBackslash && Token(t)
    ensures RowsAfter(st, t) == st.(current := st.current + t)
  {
    if t[0] == '\'' {
      var body := t[1..|t| - 1];
      assert t == "'" + body + "'";
      var open := RowsAfter(st, "'");
      assert open == st.(current := st.current + "'", inQuotes := true) by {
        assert "'"[..0] == "" && "'"[0] == '\'';
        assert RowsAfter(st, "") == st;
      }
      RowsAfterPlain(open, body);
      RowsAfterAppend(st, "'", body);
      RowsAfterAppend(st, "'" + body, "'");
      assert ("'" + body + "'")[..|t| - 1] == "'" + body;
      assert st.current + "'" + body + "'" == st.current + t;
    } else {
      RowsAfterPlain(st, t);
    }
  }

  lemma {:induction false} RowsAfterJoin(st: RowScan, ts: seq<string>)
    requires !st.inQuotes && !st.afterBackslash && st.depth == 1 && Tokens(ts)
    ensures RowsAfter(st, Join(ts, ',')) == st.(current := st.current + Join(ts, ','))
    decreases |ts|
  {
    if |ts| == 1 {
      RowsAfterToken(st, ts[0]);
    } else if |ts| > 1 {
      var rest := ts[1..];
      RowsAfterToken(st, ts[0]);
      var cut := st.(current := st.current + ts[0] + [',']);
      RowsAfterAppend(st, ts[0], [',']);
      assert RowsAfter(st, ts[0] + [',']) == cut by {
        assert (ts[0] + [','])[..|ts[0]|] == ts[0];
      }
      RowsAfterJoin(cut, rest);
      RowsAfterAppend(st, ts[0] + [','], Join(rest, ','));
      assert cut.current + Join(rest, ',') == st.current + Join(ts, ',');
    }
  }

  lemma RowsAfterLine(st: RowScan, ts: seq<string>)
    requires !st.inQuotes && !st.afterBackslash && st.depth == 0 && Tokens(ts)
    ensures RowsAfter(st, RowLine(ts)) == st.(current := st.current + RowLine(ts))
  {
    var j := Join(ts, ',');
    var open := st.(current := st.current + "(", depth := 1);
    assert RowsAfter(st, "(") == open by {
      assert "("[..0] == "";
    }
    RowsAfterJoin(open, ts);
    RowsAfterAppend(st, "(", j);
    RowsAfterAppend(st, "(" + j, ")");
    assert ("(" + j + ")")[..|j| + 1] == "(" + j;
    assert st.current + "(" + j + ")" == st.current + RowLine(ts);
  }

  lemma StripLine(pre: string, ts: seq<string>)
    requires pre == "" || pre == NewLine
    ensures Strip(pre + RowLine(ts)) == RowLine(ts)
    ensures Unwrap(RowLine(ts)) == Join(ts, ',')
  {
    var line := RowLine(ts);
    assert line[0] == '(' && line[|line| - 1] == ')';
    assert !IsSpace('(') && !IsSpace(')');
    if pre == NewLine {
      assert (pre + line)[0] == '\n' && (pre + line)[1..] == line;
      assert TrimLeft(pre + line) == TrimLeft(line);
    } else {
      assert pre + line == line;
    }
    assert TrimLeft(line) == line;
    assert TrimRight(line) == line;
    assert line[1..|line| - 1] == Join(ts, ',');
  }

  function InnersOf(rows: seq<seq<string>>): (r: seq<string>)
    ensures |r| == |rows|
  {
    seq(|rows|, k requires 0 <= k < |rows| => Join(rows[k], ','))
  }

  lemma RowsAfterSnoc(st: RowScan, a: string, c: char)
    ensures RowsAfter(st, a + [c]) == RowStep(RowsAfter(st, a), c)
  {
    assert (a + [c])[..|a|] == a;
  }

  /** A row read up to its end and the ",\n" after it: the row is cut off. */
  lemma CutStep(st: RowScan, line: string)
    requires !st.inQuotes && !st.afterBackslash && st.depth == 0
    requires Strip(st.current + line) == line && |line| > 0
    ensures RowStep(st.(current := st.current + line), ',') == RowScan(st.rows + [Unwrap(line)], "", false, 0, false)
  {
  }

  lemma LineSeparator(a: string)
    ensures a + [','] + ['\n'] == a + LineBreak
  {
  }

  /** The current row right after a line break. */
  const NewLine: string := "\n"

  lemma NewlineStep(rows: seq<string>)
    ensures RowStep(RowScan(rows, "", false, 0, false), '\n') == RowScan(rows, NewLine, false, 0, false)
  {
    assert "" + ['\n'] == NewLine;
  }

  lemma RowsAfterCut(st: RowScan, line: string)
    requires st.current == "" || st.current == NewLine
    requires !st.inQuotes && !st.afterBackslash && st.depth == 0
    requires RowsAfter(st, line) == st.(current := st.current + line)
    requires Strip(st.current + line) == line && |line| > 0
    ensures RowsAfter(st, line + LineBreak) == RowScan(st.rows + [Unwrap(line)], NewLine, false, 0, false)
  {
    var cut := RowScan(st.rows + [Unwrap(line)], "", false, 0, false);
    RowsAfterSnoc(st, line, ',');
    CutStep(st, line);
    assert RowsAfter(st, line + [',']) == cut;
    RowsAfterSnoc(st, line + [','], '\n');
    LineSeparator(line);
    NewlineStep(st.rows + [Unwrap(line)]);
  }

  lemma {:induction false} RowsAfterLines(st: RowScan, rows: seq<seq<string>>)
    requires st.current == "" || st.current == NewLine
    requires !st.inQuotes && !st.afterBackslash && st.depth == 0
    requires |rows| >= 1 && forall k :: 0 <= k < |rows| ==> Tokens(rows[k])
    ensures RowsAfter(st, JoinLines(LinesOf(rows)))
         == RowScan(st.rows + InnersOf(rows[..|rows| - 1]),
                    (if |rows| == 1 then st.current else NewLine) + RowLine(rows[|rows| - 1]), false, 0, false)
    decreases |rows|
  {
    var line := RowLine(rows[0]);
    if |rows| == 1 {
      RowsAfterLine(st, rows[0]);
    } else {
      var rest := rows[1..];
      var cut := RowScan(st.rows + [Join(rows[0], ',')], NewLine, false, 0, false);
      var tail := JoinLines(LinesOf(rest));
      assert RowsAfter(st, JoinLines(LinesOf(rows))) == RowsAfter(cut, tail) by {
        RowsAfterFirstLine(st, rows);
      }
      assert RowsAfter(cut, tail) == RowScan(cut.rows + InnersOf(rest[..|rest| - 1]), NewLine + RowLine(rest[|rest| - 1]), false, 0, false) by {
        RowsAfterLines(cut, rest);
      }
      assert st.rows + InnersOf(rows[..|rows| - 1]) == cut.rows + InnersOf(rest[..|rest| - 1]) by {
        assert rest[..|rest| - 1] == rows[1..|rows| - 1];
        InnersOfCons(rows);
      }
    }
  }

  /** The first of several lines is read and cut off, leaving the rest to read. */
  lemma RowsAfterFirstLine(st: RowScan, rows: seq<seq<string>>)
    requires st.current == "" || st.current == NewLine
    requires !st.inQuotes && !st.afterBackslash && st.depth == 0
    requires |rows| >= 2 && Tokens(rows[0])
    ensures RowsAfter(st, JoinLines(LinesOf(rows)))
         == RowsAfter(RowScan(st.rows + [Join(rows[0], ',')], NewLine, false, 0, false), JoinLines(LinesOf(rows[1..])))
  {
    var line := RowLine(rows[0]);
    var cut := RowScan(st.rows + [Join(rows[0], ',')], NewLine, false, 0, false);
    var tail := JoinLines(LinesOf(rows[1..]));
    assert RowsAfter(st, line + LineBreak) == cut by {
      RowsAfterLine(st, rows[0]);
      StripLine(st.current, rows[0]);
      RowsAfterCut(st, line);
    }
    assert JoinLines(LinesOf(rows)) == line + LineBreak + tail by {
      assert LinesOf(rows)[1..] == LinesOf(rows[1..]);
    }
    RowsAfterAppend(st, line + LineBreak, tail);
  }

  lemma InnersOfCons(rows: seq<seq<string>>)
    requires |rows| >= 2
    ensures [Join(rows[0], ',')] + InnersOf(rows[1..|rows| - 1]) == InnersOf(rows[..|rows| - 1])
  {
    var a, b := [Join(rows[0], ',')] + InnersOf(rows[1..|rows| - 1]), InnersOf(rows[..|rows| - 1]);
    forall k | 0 <= k < |b|
      ensures a[k] == b[k]
    {
      if k > 0 {
        assert a[k] == InnersOf(rows[1..|rows| - 1])[k - 1];
      }
    }
  }

  /** The row splitter cuts a dump back into the value lists of its lines. */
  lemma SplitRowsOfDump(rows: seq<seq<string>>)
    requires forall k :: 0 <= k < |rows| ==> Tokens(rows[k])
    ensures SplitRows(JoinLines(LinesOf(rows))) == InnersOf(rows)
  {
    if |rows| > 0 {
      var end := RowsAfter(RowStart, JoinLines(LinesOf(rows)));
      DumpFinish(rows, end);
      InnersOfSnoc(rows);
    }
  }

  /** Where the scan of a whole dump ends: every line but the last cut, the last one still open. */
  lemma DumpScan(rows: seq<seq<string>>)
    requires |rows| > 0 && forall k :: 0 <= k < |rows| ==> Tokens(rows[k])
    ensures RowsAfter(RowStart, JoinLines(LinesOf(rows)))
            == RowScan(InnersOf(rows[..|rows| - 1]), (if |rows| == 1 then "" else NewLine) + RowLine(rows[|rows| - 1]), false, 0, false)
  {
    RowsAfterLines(RowStart, rows);
    assert [] + InnersOf(rows[..|rows| - 1]) == InnersOf(rows[..|rows| - 1]);
  }

  /** The open line left at the end of a dump is kept as the last row. */
  lemma DumpFinish(rows: seq<seq<string>>, end: RowScan)
    requires |rows| > 0 && forall k :: 0 <= k < |rows| ==> Tokens(rows[k])
    requires end == RowsAfter(RowStart, JoinLines(LinesOf(rows)))
    ensures FinishRows(end) == InnersOf(rows[..|rows| - 1]) + [Join(rows[|rows| - 1], ',')]
  {
    var last := rows[|rows| - 1];
    var pre := if |rows| == 1 then "" else NewLine;
    DumpScan(rows);
    StripLine(pre, last);
    FinishWrapped(end, RowLine(last));
  }

  lemma InnersOfSnoc(rows: seq<seq<string>>)
    requires |rows| >= 1
    ensures InnersOf(rows[..|rows| - 1]) + [Join(rows[|rows| - 1], ',')] == InnersOf(rows)
  {
    var a := InnersOf(rows[..|rows| - 1]) + [Join(rows[|rows| - 1], ',')];
    forall k | 0 <= k < |rows|
      ensures a[k] == InnersOf(rows)[k]
    {
      if k < |rows| - 1 {
        assert a[k] == InnersOf(rows[..|rows| - 1])[k];
      }
    }
  }

  lemma FinishWrapped(st: RowScan, line: string)
    requires Strip(st.current) == line && |line| >= 2 && line[0] == '(' && line[|line| - 1] == ')'
    ensures FinishRows(st) == st.rows + [Unwrap(line)]
  {
  }

  /**
   * Reading a dump of complete rows gives the rows back: the reader and
   * the writer agree on every value whose strings hold no quote and no
   * backslash.
   */
  lemma ReadRowsOfDump(rows: seq<seq<SqlValue>>, floatText: real -> string)
    requires forall k :: 0 <= k < |rows| ==> |rows[k]| == Columns
    requires forall k, j :: 0 <= k < |rows| && 0 <= j < |rows[k]| ==> Writable(rows[k][j], floatText)
    ensures ReadRows(Dump(rows, floatText)) == rows
  {
    var written := WrittenRows(rows, floatText);
    forall k | 0 <= k < |rows|
      ensures Tokens(written[k])
      ensures ParseValues(Join(written[k], ',')) == rows[k]
    {
      forall j | 0 <= j < |rows[k]|
        ensures Token(written[k][j])
      {
        CleanWritten(rows[k][j], floatText);
      }
      ParseValuesOfWritten(rows[k], floatText);
    }
    SplitRowsOfDump(written);
    assert ParseAll(InnersOf(written)) == rows;
    KeepCompleteKeepsAll(rows);
  }
}
