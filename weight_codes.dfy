/**
 * Weight codes: the string keys of the weight registries and of the
 * values the services return.  Three formats are in use:
 *   - market and ECB contexts: `{entity}_{r}_{t}_{m}_{mode}[_{shift}]`
 *     with one-letter label codes;
 *   - economic-event contexts: `{eid}__{f}__{s}__{a}__{mode}[__{hour}]`
 *     with the full label names;
 *   - event types: `{eid}_{type}_{mode}[_{shift}]`, all integers.
 * Every context yields two base codes (modes 0 and 1, no shift) and,
 * when it recurs, two more for every shift of -12..12.
 */
module WeightCodes {
  import opened Wrappers
  import opened Text
  import opened Classify

  /** The shift range of every generator. */
  const DefaultShifts: ShiftRange := ShiftRange(-12, 12)

  // ------------------------------------------------ one-letter label codes

  /** The three dictionaries a label can be coded with. */
  datatype Direction = Change | Trend | Momentum

  /**
   * The one-letter code of a label: X, U, D, F for rate change and momentum
   * (the two dictionaries are identical), X, A, B, T for trend; a label
   * missing from the dictionary is coded "X" like UNKNOWN.
   */
  function Letter(value: Label, d: Direction): (c: char)
    ensures 'A' <= c <= 'Z'
    ensures d != Trend ==> (c == 'X' <==> value == UNKNOWN || !IsChangeLabel(value))
    ensures d == Trend ==> (c == 'X' <==> value == UNKNOWN || !IsTrendLabel(value))
  {
    match d
    case Trend => (match value case ABOVE => 'A' case BELOW => 'B' case AT => 'T' case _ => 'X')
    case _ => (match value case UP => 'U' case DOWN => 'D' case FLAT => 'F' case _ => 'X')
  }

  /** The reverse dictionaries: the label a letter stands for, if any. */
  function LabelOfLetter(c: char, d: Direction): (r: Option<Label>)
    ensures r.Some? ==> Letter(r.value, d) == c
  {
    match d
    case Trend =>
      (if c == 'X' then Some(UNKNOWN) else if c == 'A' then Some(ABOVE)
       else if c == 'B' then Some(BELOW) else if c == 'T' then Some(AT) else None)
    case _ =>
      (if c == 'X' then Some(UNKNOWN) else if c == 'U' then Some(UP)
       else if c == 'D' then Some(DOWN) else if c == 'F' then Some(FLAT) else None)
  }

  /** What a label is read back as: itself inside its dictionary, UNKNOWN outside it. */
  function Coded(value: Label, d: Direction): Label
  {
    if (if d == Trend then IsTrendLabel(value) else IsChangeLabel(value)) then value else UNKNOWN
  }

  lemma LabelOfLetterOfLetter(value: Label, d: Direction)
    ensures LabelOfLetter(Letter(value, d), d) == Some(Coded(value, d))
  {
  }

  /** A decoded label field: a stored label name, or the part itself when no letter matches. */
  datatype Stored = Known(name: Label) | Raw(text: string)

  /** `REV.get(part, part)`. */
  function ReadLetter(part: string, d: Direction): (s: Stored)
    ensures s.Raw? ==> s.text == part
    ensures s.Known? ==> part == [Letter(s.name, d)]
  {
    if |part| == 1 && LabelOfLetter(part[0], d).Some? then Known(LabelOfLetter(part[0], d).value) else Raw(part)
  }

  /** The fields of a market or ECB code, before they are joined with '_'. */
  function MarketCodeParts(entity: string, ctx: Context, mode: int, shift: Option<int>): seq<string>
  {
    [entity, [Letter(ctx.rcd, Change)], [Letter(ctx.td, Trend)], [Letter(ctx.md, Momentum)], IntToString(mode)]
    + (if shift.Some? then [IntToString(shift.value)] else [])
  }

  /** `{entity}_{r}_{t}_{m}_{mode}`, followed by `_{shift}` when a shift is given. */
  function MarketCode(entity: string, ctx: Context, mode: int, shift: Option<int>): string
  {
    Join(MarketCodeParts(entity, ctx, mode, shift), '_')
  }

  /** The documented example of the builder without a shift. */
  lemma MarketCodeExample()
    ensures MarketCode("EURUSD", Context(UP, ABOVE, UP), 0, None) == "EURUSD_U_A_U_0"
  {
    assert IntToString(0) == "0";
    assert MarketCodeParts("EURUSD", Context(UP, ABOVE, UP), 0, None) == ["EURUSD", "U", "A", "U", "0"];
    JoinCons("EURUSD", ["U", "A", "U", "0"], '_');
    JoinCons("U", ["A", "U", "0"], '_');
    JoinCons("A", ["U", "0"], '_');
    JoinCons("U", ["0"], '_');
  }

  datatype Decoded = Decoded(entity: string, rcd: Stored, td: Stored, md: Stored, mode: int, shift: Option<int>)

  /** The decoder's three outcomes: the fields, `{}` for too few parts, or a ValueError from int(). */
  datatype DecodeResult = Fields(fields: Decoded) | NoFields | BadInteger

  /**
   * decode_weight_code on the '_'-separated parts: fewer than 5 give `{}`;
   * letters are mapped back, any other part passes through; the mode and
   * an optional sixth part must be integers; parts beyond the sixth are ignored.
   */
  function DecodeParts(parts: seq<string>): (r: DecodeResult)
    ensures r.NoFields? <==> |parts| < 5
    ensures r.Fields? ==> r.fields.entity == parts[0] && ParseInt(parts[4]) == Some(r.fields.mode)
    ensures r.Fields? ==> (r.fields.shift.Some? <==> |parts| > 5)
    ensures r.Fields? && |parts| > 5 ==> ParseInt(parts[5]) == r.fields.shift
  {
    if |parts| < 5 then NoFields
    else
      var mode := ParseInt(parts[4]);
      var shift := if |parts| > 5 then ParseInt(parts[5]) else None;
      if mode.None? || (|parts| > 5 && shift.None?) then BadInteger
      else
        Fields(Decoded(parts[0], ReadLetter(parts[1], Change), ReadLetter(parts[2], Trend),
                       ReadLetter(parts[3], Momentum), mode.value, shift))
  }

  /** decode_weight_code. */
  function DecodeMarketCode(code: string): DecodeResult
  {
    DecodeParts(Split(code, '_'))
  }

  lemma NoSeparatorInInt(i: int)
    ensures '_' !in IntToString(i)
  {
    var s := IntToString(i);
    if i < 0 {
      var d := NatToString(-i);
      assert s == "-" + d;
      forall k | 0 <= k < |d| ensures d[k] != '_' { assert IsDigit(d[k]); }
    } else {
      forall k | 0 <= k < |s| ensures s[k] != '_' { assert IsDigit(s[k]); }
    }
  }

  lemma NoSeparatorInName(l: Label)
    ensures '_' !in Name(l)
  {
    var s := Name(l);
    forall k | 0 <= k < |s| ensures s[k] != '_' { assert 'A' <= s[k] <= 'Z'; }
  }

  /** The optional integer tail of a code. */
  function ShiftPart(shift: Option<int>): seq<string>
  {
    if shift.Some? then [IntToString(shift.value)] else []
  }

  lemma NoSeparatorInShiftPart(shift: Option<int>)
    ensures forall k :: 0 <= k < |ShiftPart(shift)| ==> '_' !in ShiftPart(shift)[k]
  {
    if shift.Some? { NoSeparatorInInt(shift.value); }
  }

  lemma ReadLetterOfLetter(value: Label, d: Direction)
    ensures ReadLetter([Letter(value, d)], d) == Known(Coded(value, d))
  {
    LabelOfLetterOfLetter(value, d);
  }

  /** How the decoder reads parts whose integer fields are well formed. */
  lemma DecodePartsShape(parts: seq<string>, mode: int, shift: Option<int>)
    requires |parts| == (if shift.Some? then 6 else 5)
    requires ParseInt(parts[4]) == Some(mode)
    requires shift.Some? ==> ParseInt(parts[5]) == shift
    ensures DecodeParts(parts) == Fields(Decoded(parts[0], ReadLetter(parts[1], Change), ReadLetter(parts[2], Trend),
                                                 ReadLetter(parts[3], Momentum), mode, shift))
  {
  }

  lemma DecodePartsOfMarketParts(entity: string, ctx: Context, mode: int, shift: Option<int>)
    ensures DecodeParts(MarketCodeParts(entity, ctx, mode, shift))
      == Fields(Decoded(entity, Known(Coded(ctx.rcd, Change)), Known(Coded(ctx.td, Trend)),
                        Known(Coded(ctx.md, Momentum)), mode, shift))
  {
    var parts := MarketCodeParts(entity, ctx, mode, shift);
    assert parts[1] == [Letter(ctx.rcd, Change)] && parts[2] == [Letter(ctx.td, Trend)] && parts[3] == [Letter(ctx.md, Momentum)];
    assert parts[4] == IntToString(mode);
    ParseIntOfIntToString(mode);
    if shift.Some? {
      assert parts[5] == IntToString(shift.value);
      ParseIntOfIntToString(shift.value);
    }
    DecodePartsShape(parts, mode, shift);
    ReadLetterOfLetter(ctx.rcd, Change);
    ReadLetterOfLetter(ctx.td, Trend);
    ReadLetterOfLetter(ctx.md, Momentum);
  }

  /**
   * decode(make(x)) gives x back for an entity without '_': each label
   * comes back as itself when it is in its dictionary (as UNKNOWN when it
   * is not), with the same mode and shift.
   */
  lemma DecodeOfMarketCode(entity: string, ctx: Context, mode: int, shift: Option<int>)
    requires '_' !in entity
    ensures DecodeMarketCode(MarketCode(entity, ctx, mode, shift))
      == Fields(Decoded(entity, Known(Coded(ctx.rcd, Change)), Known(Coded(ctx.td, Trend)),
                        Known(Coded(ctx.md, Momentum)), mode, shift))
  {
    var parts := MarketCodeParts(entity, ctx, mode, shift);
    NoSeparatorInInt(mode);
    NoSeparatorInShiftPart(shift);
    assert parts == [entity, [Letter(ctx.rcd, Change)], [Letter(ctx.td, Trend)], [Letter(ctx.md, Momentum)], IntToString(mode)]
      + ShiftPart(shift);
    SplitOfJoin(parts, '_');
    DecodePartsOfMarketParts(entity, ctx, mode, shift);
  }

  /** The documented decoder example, read off the code the builder makes for it. */
  lemma DecodeMarketCodeExample()
    ensures DecodeMarketCode(MarketCode("EURUSD", Context(UP, ABOVE, UP), 0, Some(5)))
      == Fields(Decoded("EURUSD", Known(UP), Known(ABOVE), Known(UP), 0, Some(5)))
  {
    DecodeOfMarketCode("EURUSD", Context(UP, ABOVE, UP), 0, Some(5));
  }

  /** The tail of a market code after the entity: three letters, the mode and the optional shift. */
  function MarketCodeTail(ctx: Context, mode: int, shift: Option<int>): seq<string>
  {
    [[Letter(ctx.rcd, Change)], [Letter(ctx.td, Trend)], [Letter(ctx.md, Momentum)], IntToString(mode)] + ShiftPart(shift)
  }

  lemma NoSeparatorInMarketTail(ctx: Context, mode: int, shift: Option<int>)
    ensures forall k :: 0 <= k < |MarketCodeTail(ctx, mode, shift)| ==> '_' !in MarketCodeTail(ctx, mode, shift)[k]
  {
    NoSeparatorInInt(mode);
    NoSeparatorInShiftPart(shift);
  }

  /** Within one context, distinct (mode, shift) pairs give distinct codes, whatever the entity. */
  lemma MarketCodeInjective(entity: string, ctx: Context, m1: int, s1: Option<int>, m2: int, s2: Option<int>)
    requires MarketCode(entity, ctx, m1, s1) == MarketCode(entity, ctx, m2, s2)
    ensures m1 == m2 && s1 == s2
  {
    var t1, t2 := MarketCodeTail(ctx, m1, s1), MarketCodeTail(ctx, m2, s2);
    assert MarketCodeParts(entity, ctx, m1, s1) == [entity] + t1;
    assert MarketCodeParts(entity, ctx, m2, s2) == [entity] + t2;
    JoinCancelHead(entity, t1, t2, '_');
    NoSeparatorInMarketTail(ctx, m1, s1);
    NoSeparatorInMarketTail(ctx, m2, s2);
    SplitOfJoin(t1, '_');
    SplitOfJoin(t2, '_');
    assert IntToString(m1) == t1[3] == t2[3] == IntToString(m2);
    IntToStringInjective(m1, m2);
    if s1.Some? || s2.Some? {
      assert |t1| == |t2| == 5;
      assert IntToString(s1.value) == t1[4] == t2[4] == IntToString(s2.value);
      IntToStringInjective(s1.value, s2.value);
    }
  }

  // ------------------------------------------------------- generated slots

  /** An inclusive range of shifts; every generator uses -12..12. */
  datatype ShiftRange = ShiftRange(lo: int, hi: int)

  predicate WellFormedRange(r: ShiftRange) { r.lo <= r.hi + 1 }

  /** One (mode, shift) combination of a context's registry rows. */
  datatype Slot = Slot(mode: int, shift: Option<int>)

  /** For each shift of lo..hi in order: mode 0, then mode 1. */
  function ShiftSlots(lo: int, hi: int): seq<Slot>
    decreases hi - lo + 1
  {
    if lo > hi then [] else [Slot(0, Some(lo)), Slot(1, Some(lo))] + ShiftSlots(lo + 1, hi)
  }

  /** The two base slots, then the shifted ones when the context recurs. */
  function Slots(recurring: bool, r: ShiftRange): seq<Slot>
  {
    [Slot(0, None), Slot(1, None)] + (if recurring then ShiftSlots(r.lo, r.hi) else [])
  }

  /** Rows per context: 2, plus 2 per shift when it recurs. */
  function RowsPerContext(recurring: bool, r: ShiftRange): int
  {
    if recurring then 2 + 2 * (r.hi - r.lo + 1) else 2
  }

  predicate ValidSlot(s: Slot, recurring: bool, r: ShiftRange)
  {
    (s.mode == 0 || s.mode == 1)
    && (s.shift.Some? ==> recurring && r.lo <= s.shift.value <= r.hi)
  }

  lemma {:induction false} ShiftSlotsFacts(lo: int, hi: int)
    requires lo <= hi + 1
    ensures |ShiftSlots(lo, hi)| == 2 * (hi - lo + 1)
    ensures forall i :: 0 <= i < |ShiftSlots(lo, hi)| ==>
      var s := ShiftSlots(lo, hi)[i]; (s.mode == 0 || s.mode == 1) && s.shift.Some? && lo <= s.shift.value <= hi
    ensures forall i, j :: 0 <= i < j < |ShiftSlots(lo, hi)| ==> ShiftSlots(lo, hi)[i] != ShiftSlots(lo, hi)[j]
    ensures forall m, v :: (m == 0 || m == 1) && lo <= v <= hi ==> Slot(m, Some(v)) in ShiftSlots(lo, hi)
    decreases hi - lo + 1
  {
    if lo <= hi {
      ShiftSlotsFacts(lo + 1, hi);
      var rest := ShiftSlots(lo + 1, hi);
      var all := ShiftSlots(lo, hi);
      assert all == [Slot(0, Some(lo)), Slot(1, Some(lo))] + rest;
      forall i, j | 0 <= i < j < |all| ensures all[i] != all[j] {
        if j >= 2 {
          assert all[j] == rest[j - 2];
          if i >= 2 { assert all[i] == rest[i - 2]; }
        }
      }
      forall m, v | (m == 0 || m == 1) && lo <= v <= hi ensures Slot(m, Some(v)) in all {
        if v > lo { assert Slot(m, Some(v)) in rest; }
        else if m == 0 { assert all[0] == Slot(m, Some(v)); }
        else { assert all[1] == Slot(m, Some(v)); }
      }
    }
  }

  /**
   * A context has 2 slots, or 2 + 2 per shift when it recurs; all are valid
   * and pairwise distinct, the first two are the unshifted modes 0 and 1,
   * and every shift of the range appears with both modes.
   */
  lemma SlotsFacts(recurring: bool, r: ShiftRange)
    requires WellFormedRange(r)
    ensures |Slots(recurring, r)| == RowsPerContext(recurring, r)
    ensures Slots(recurring, r)[0] == Slot(0, None) && Slots(recurring, r)[1] == Slot(1, None)
    ensures forall i :: 0 <= i < |Slots(recurring, r)| ==> ValidSlot(Slots(recurring, r)[i], recurring, r)
    ensures forall i, j :: 0 <= i < j < |Slots(recurring, r)| ==> Slots(recurring, r)[i] != Slots(recurring, r)[j]
    ensures recurring ==> forall m, v :: (m == 0 || m == 1) && r.lo <= v <= r.hi ==> Slot(m, Some(v)) in Slots(recurring, r)
  {
    ShiftSlotsFacts(r.lo, r.hi);
    var all := Slots(recurring, r);
    var rest := if recurring then ShiftSlots(r.lo, r.hi) else [];
    assert all == [Slot(0, None), Slot(1, None)] + rest;
    forall i | 0 <= i < |all| ensures ValidSlot(all[i], recurring, r) {
      if i >= 2 { assert all[i] == rest[i - 2]; }
    }
    forall i, j | 0 <= i < j < |all| ensures all[i] != all[j] {
      if j >= 2 {
        assert all[j] == rest[j - 2];
        if i >= 2 { assert all[i] == rest[i - 2]; }
      }
    }
    if recurring {
      forall m, v | (m == 0 || m == 1) && r.lo <= v <= r.hi ensures Slot(m, Some(v)) in all {
        assert Slot(m, Some(v)) in rest;
      }
    }
  }

  // ------------------------------------------- market / ECB registry rows

  /** A registry row of the market (hour shifts) or ECB (day shifts) weights table. */
  datatype MarketRow = MarketRow(code: string, entity: string, ctx: Context, mode: int, shift: Option<int>, occ: Option<int>)

  predicate IsRecurring(occ: Option<int>) { occ.Some? && occ.value > 1 }

  /** generate_rows: the rows of one context, in generator order. */
  function GenerateMarketRows(entity: string, ctx: Context, occ: Option<int>, r: ShiftRange): seq<MarketRow>
  {
    var slots := Slots(IsRecurring(occ), r);
    seq(|slots|, i requires 0 <= i < |slots| =>
      MarketRow(MarketCode(entity, ctx, slots[i].mode, slots[i].shift), entity, ctx, slots[i].mode, slots[i].shift, occ))
  }

  /**
   * Two base rows always, and two per shift more for a recurring context;
   * every row carries its own code, the codes are pairwise distinct (as the
   * weight_code primary key needs) and only a recurring context gets shifts.
   */
  lemma GenerateMarketRowsFacts(entity: string, ctx: Context, occ: Option<int>, r: ShiftRange)
    requires WellFormedRange(r)
    ensures var rows := GenerateMarketRows(entity, ctx, occ, r);
      && |rows| == RowsPerContext(IsRecurring(occ), r)
      && rows[0].mode == 0 && rows[0].shift.None? && rows[1].mode == 1 && rows[1].shift.None?
      && (forall i :: 0 <= i < |rows| ==> rows[i].code == MarketCode(entity, ctx, rows[i].mode, rows[i].shift))
      && (forall i :: 0 <= i < |rows| ==> ValidSlot(Slot(rows[i].mode, rows[i].shift), IsRecurring(occ), r))
      && (forall i, j :: 0 <= i < j < |rows| ==> rows[i].code != rows[j].code)
  {
    var rows := GenerateMarketRows(entity, ctx, occ, r);
    var slots := Slots(IsRecurring(occ), r);
    SlotsFacts(IsRecurring(occ), r);
    forall i | 0 <= i < |rows| ensures ValidSlot(Slot(rows[i].mode, rows[i].shift), IsRecurring(occ), r) {
      assert Slot(rows[i].mode, rows[i].shift) == slots[i];
    }
    forall i, j | 0 <= i < j < |rows| ensures rows[i].code != rows[j].code {
      if rows[i].code == rows[j].code {
        MarketCodeInjective(entity, ctx, slots[i].mode, slots[i].shift, slots[j].mode, slots[j].shift);
      }
    }
  }

  lemma GenerateMarketRowsCount(entity: string, ctx: Context, occ: Option<int>, r: ShiftRange)
    requires WellFormedRange(r)
    ensures |GenerateMarketRows(entity, ctx, occ, r)| == RowsPerContext(IsRecurring(occ), r)
  {
    ShiftSlotsFacts(r.lo, r.hi);
  }

  /** A context-index row as the weight builders read it. */
  datatype ContextRow = ContextRow(entity: string, ctx: Context, occ: Option<int>)

  /** All registry rows, context after context. */
  function RegistryRows(contexts: seq<ContextRow>, r: ShiftRange): seq<MarketRow>
  {
    if |contexts| == 0 then []
    else
      var last := contexts[|contexts| - 1];
      RegistryRows(contexts[..|contexts| - 1], r) + GenerateMarketRows(last.entity, last.ctx, last.occ, r)
  }

  function RecurringCount(contexts: seq<ContextRow>): nat
  {
    if |contexts| == 0 then 0
    else RecurringCount(contexts[..|contexts| - 1]) + (if IsRecurring(contexts[|contexts| - 1].occ) then 1 else 0)
  }

  /** Rows of all contexts, added up context by context. */
  function RegistryRowCount(contexts: seq<ContextRow>, r: ShiftRange): int
  {
    if |contexts| == 0 then 0
    else RegistryRowCount(contexts[..|contexts| - 1], r) + RowsPerContext(IsRecurring(contexts[|contexts| - 1].occ), r)
  }

  lemma {:induction false} RegistryRowsCounted(contexts: seq<ContextRow>, r: ShiftRange)
    requires WellFormedRange(r)
    ensures |RegistryRows(contexts, r)| == RegistryRowCount(contexts, r)
  {
    if |contexts| > 0 {
      var last := contexts[|contexts| - 1];
      RegistryRowsCounted(contexts[..|contexts| - 1], r);
      GenerateMarketRowsCount(last.entity, last.ctx, last.occ, r);
    }
  }

  lemma {:induction false} RegistryRowCountFormula(contexts: seq<ContextRow>, r: ShiftRange)
    ensures RecurringCount(contexts) <= |contexts|
    ensures RegistryRowCount(contexts, r) ==
      (|contexts| - RecurringCount(contexts)) * 2 + RecurringCount(contexts) * RowsPerContext(true, r)
  {
    if |contexts| > 0 {
      var init := contexts[..|contexts| - 1];
      RegistryRowCountFormula(init, r);
      var m, n, k := |init|, RecurringCount(init), RowsPerContext(true, r);
      var base := RegistryRowCount(init, r);
      assert base == (m - n) * 2 + n * k;
      if IsRecurring(contexts[|contexts| - 1].occ) {
        assert RegistryRowCount(contexts, r) == base + k;
        assert RecurringCount(contexts) == n + 1;
        MulSucc(n, k);
      } else {
        assert RegistryRowCount(contexts, r) == base + 2;
        assert RecurringCount(contexts) == n;
        assert (m + 1 - n) * 2 == (m - n) * 2 + 2;
      }
    }
  }

  lemma MulSucc(n: int, k: int)
    ensures (n + 1) * k == n * k + k
  {
  }

  /** The builder's estimate is exact: non_recurring·2 + recurring·(2 + 2·(number of shifts)) rows. */
  lemma RegistrySize(contexts: seq<ContextRow>, r: ShiftRange)
    requires WellFormedRange(r)
    ensures RecurringCount(contexts) <= |contexts|
    ensures |RegistryRows(contexts, r)| ==
      (|contexts| - RecurringCount(contexts)) * 2 + RecurringCount(contexts) * (2 + 2 * (r.hi - r.lo + 1))
  {
    RegistryRowsCounted(contexts, r);
    RegistryRowCountFormula(contexts, r);
  }

  // ------------------------------------------------ economic-event codes

  /** Parts joined with "__". */
  function JoinDouble(parts: seq<string>): string
  {
    if |parts| == 0 then ""
    else if |parts| == 1 then parts[0]
    else parts[0] + "__" + JoinDouble(parts[1..])
  }

  function EventCodeParts(eid: int, ctx: Context, mode: int, hour: Option<int>): seq<string>
  {
    [IntToString(eid), Name(ctx.rcd), Name(ctx.td), Name(ctx.md), IntToString(mode)] + ShiftPart(hour)
  }

  /** `{eid}__{f}__{s}__{a}__{mode}`, followed by `__{hour}` when an hour is given. */
  function EventCode(eid: int, ctx: Context, mode: int, hour: Option<int>): string
  {
    JoinDouble(EventCodeParts(eid, ctx, mode, hour))
  }

  /** The parts with an empty part between neighbours, so that '_'.join gives "__" separators. */
  function Spaced(parts: seq<string>): seq<string>
  {
    if |parts| <= 1 then parts else [parts[0], ""] + Spaced(parts[1..])
  }

  /** The inverse of Spaced: every second part must be empty. */
  function Unspaced(parts: seq<string>): Option<seq<string>>
  {
    if |parts| <= 1 then Some(parts)
    else if |parts| == 2 || parts[1] != "" then None
    else match Unspaced(parts[2..])
      case None => None
      case Some(rest) => Some([parts[0]] + rest)
  }

  lemma {:induction false} JoinDoubleIsSpacedJoin(parts: seq<string>)
    ensures JoinDouble(parts) == Join(Spaced(parts), '_')
    ensures |parts| >= 1 ==> |Spaced(parts)| >= 1
    ensures (forall k :: 0 <= k < |parts| ==> '_' !in parts[k]) ==>
      forall k :: 0 <= k < |Spaced(parts)| ==> '_' !in Spaced(parts)[k]
  {
    if |parts| > 1 {
      JoinDoubleIsSpacedJoin(parts[1..]);
      var sp := Spaced(parts[1..]);
      assert Spaced(parts) == [parts[0], ""] + sp;
      assert Join([parts[0], ""] + sp, '_') == parts[0] + "_" + Join([""] + sp, '_') by {
        JoinCons(parts[0], [""] + sp, '_');
        assert [parts[0]] + ([""] + sp) == [parts[0], ""] + sp;
      }
      JoinCons("", sp, '_');
      assert parts[0] + "_" + ("" + "_" + Join(sp, '_')) == parts[0] + "__" + Join(sp, '_');
    }
  }

  lemma {:induction false} UnspacedOfSpaced(parts: seq<string>)
    ensures Unspaced(Spaced(parts)) == Some(parts)
  {
    if |parts| > 1 {
      UnspacedOfSpaced(parts[1..]);
      var sp := Spaced(parts[1..]);
      assert ([parts[0], ""] + sp)[2..] == sp;
      assert |sp| >= 1;
      assert [parts[0]] + parts[1..] == parts;
    }
  }

  /** A "__"-join of '_'-free parts determines the parts. */
  lemma JoinDoubleInjective(a: seq<string>, b: seq<string>)
    requires |a| >= 1 && |b| >= 1
    requires forall k :: 0 <= k < |a| ==> '_' !in a[k]
    requires forall k :: 0 <= k < |b| ==> '_' !in b[k]
    requires JoinDouble(a) == JoinDouble(b)
    ensures a == b
  {
    JoinDoubleIsSpacedJoin(a);
    JoinDoubleIsSpacedJoin(b);
    SplitOfJoin(Spaced(a), '_');
    SplitOfJoin(Spaced(b), '_');
    UnspacedOfSpaced(a);
    UnspacedOfSpaced(b);
  }

  lemma NoSeparatorInEventParts(eid: int, ctx: Context, mode: int, hour: Option<int>)
    ensures forall k :: 0 <= k < |EventCodeParts(eid, ctx, mode, hour)| ==> '_' !in EventCodeParts(eid, ctx, mode, hour)[k]
  {
    NoSeparatorInInt(eid);
    NoSeparatorInInt(mode);
    NoSeparatorInShiftPart(hour);
    NoSeparatorInName(ctx.rcd);
    NoSeparatorInName(ctx.td);
    NoSeparatorInName(ctx.md);
  }

  /**
   * Event codes determine their fields: equal codes come from the same
   * event, the same labels, the same mode and the same hour.  (The event
   * weights have no decoder; this is the property their primary key needs.)
   */
  lemma EventCodeInjective(e1: int, c1: Context, m1: int, h1: Option<int>, e2: int, c2: Context, m2: int, h2: Option<int>)
    requires EventCode(e1, c1, m1, h1) == EventCode(e2, c2, m2, h2)
    ensures e1 == e2 && c1 == c2 && m1 == m2 && h1 == h2
  {
    var p1, p2 := EventCodeParts(e1, c1, m1, h1), EventCodeParts(e2, c2, m2, h2);
    NoSeparatorInEventParts(e1, c1, m1, h1);
    NoSeparatorInEventParts(e2, c2, m2, h2);
    assert JoinDouble(p1) == JoinDouble(p2);
    JoinDoubleInjective(p1, p2);
    assert IntToString(e1) == p1[0] == p2[0] == IntToString(e2);
    IntToStringInjective(e1, e2);
    assert IntToString(m1) == p1[4] == p2[4] == IntToString(m2);
    IntToStringInjective(m1, m2);
    assert Name(c1.rcd) == p1[1] == p2[1] == Name(c2.rcd);
    NameInjective(c1.rcd, c2.rcd);
    assert Name(c1.td) == p1[2] == p2[2] == Name(c2.td);
    NameInjective(c1.td, c2.td);
    assert Name(c1.md) == p1[3] == p2[3] == Name(c2.md);
    NameInjective(c1.md, c2.md);
    if h1.Some? || h2.Some? {
      assert |p1| == |p2| == 6;
      assert IntToString(h1.value) == p1[5] == p2[5] == IntToString(h2.value);
      IntToStringInjective(h1.value, h2.value);
    }
  }

  lemma NameInjective(a: Label, b: Label)
    requires Name(a) == Name(b)
    ensures a == b
  {
    LabelNamedOfName(a);
    LabelNamedOfName(b);
  }

  datatype EventContextRow = EventContextRow(code: string, eid: int, ctx: Context, mode: int, hour: Option<int>,
                                             occ: Option<int>, importance: Option<int>, currency: Option<string>)

  /** generate_rows_for_context of the event weights: the rows of one context, in generator order. */
  function GenerateEventContextRows(eid: int, ctx: Context, occ: Option<int>, importance: Option<int>, currency: Option<string>,
                                    r: ShiftRange): seq<EventContextRow>
  {
    var slots := Slots(IsRecurring(occ), r);
    seq(|slots|, i requires 0 <= i < |slots| =>
      EventContextRow(EventCode(eid, ctx, slots[i].mode, slots[i].shift), eid, ctx, slots[i].mode, slots[i].shift,
                      occ, importance, currency))
  }

  /** 2 rows, and 2 per hour more for a recurring context, with pairwise distinct codes built from their own fields. */
  lemma GenerateEventContextRowsFacts(eid: int, ctx: Context, occ: Option<int>, importance: Option<int>, currency: Option<string>,
                                      r: ShiftRange)
    requires WellFormedRange(r)
    ensures var rows := GenerateEventContextRows(eid, ctx, occ, importance, currency, r);
      && |rows| == RowsPerContext(IsRecurring(occ), r)
      && rows[0].mode == 0 && rows[0].hour.None? && rows[1].mode == 1 && rows[1].hour.None?
      && (forall i :: 0 <= i < |rows| ==> rows[i].code == EventCode(eid, ctx, rows[i].mode, rows[i].hour))
      && (forall i :: 0 <= i < |rows| ==> ValidSlot(Slot(rows[i].mode, rows[i].hour), IsRecurring(occ), r))
      && (forall i, j :: 0 <= i < j < |rows| ==> rows[i].code != rows[j].code)
  {
    var rows := GenerateEventContextRows(eid, ctx, occ, importance, currency, r);
    var slots := Slots(IsRecurring(occ), r);
    SlotsFacts(IsRecurring(occ), r);
    forall i | 0 <= i < |rows| ensures ValidSlot(Slot(rows[i].mode, rows[i].hour), IsRecurring(occ), r) {
      assert Slot(rows[i].mode, rows[i].hour) == slots[i];
    }
    forall i, j | 0 <= i < j < |rows| ensures rows[i].code != rows[j].code {
      if rows[i].code == rows[j].code {
        EventCodeInjective(eid, ctx, slots[i].mode, slots[i].shift, eid, ctx, slots[j].mode, slots[j].shift);
      }
    }
  }

  // --------------------------------------------------- event-type codes

  /** An event recurs (type 1) when it occurred more than once; a missing count reads as 0. */
  function EventTypeOf(count: Option<int>): (t: int)
    ensures t == 0 || t == 1
    ensures t == 1 <==> count.Some? && count.value > 1
  {
    if count.GetOr(0) > 1 then 1 else 0
  }

  function TypeCodeParts(eid: int, etype: int, mode: int, shift: Option<int>): seq<string>
  {
    [IntToString(eid), IntToString(etype), IntToString(mode)] + ShiftPart(shift)
  }

  /** `{eid}_{type}_{mode}`, followed by `_{shift}` when a shift is given. */
  function TypeCode(eid: int, etype: int, mode: int, shift: Option<int>): string
  {
    Join(TypeCodeParts(eid, etype, mode, shift), '_')
  }

  lemma TypeCodeExample()
    ensures TypeCode(42, 1, 0, Some(-5)) == "42_1_0_-5"
    ensures TypeCode(42, 0, 1, None) == "42_0_1"
  {
    assert IntToString(42) == "42" by { assert NatToString(42) == NatToString(4) + [DigitChar(2)]; }
  }

  /** The cursor that `/new_weights` reads from a code. */
  datatype Cursor = Cursor(eid: int, etype: int, mode: int, shift: Option<int>)

  datatype HttpError = HttpError(status: int, detail: string)

  /** The cursor read from the '_'-separated parts of a code. */
  function CursorOfParts(parts: seq<string>): (r: Result<Cursor, HttpError>)
    ensures r.Failure? ==> r.error.status == 400
    ensures |parts| < 3 ==> r == Failure(HttpError(400, "Invalid weight_code format"))
    ensures r.Success? ==> (r.value.shift.Some? <==> |parts| > 3)
    ensures r.Success? ==>
      (ParseInt(parts[0]) == Some(r.value.eid) && ParseInt(parts[1]) == Some(r.value.etype)
       && ParseInt(parts[2]) == Some(r.value.mode))
    ensures |parts| >= 3 && (ParseInt(parts[0]).None? || ParseInt(parts[1]).None? || ParseInt(parts[2]).None?) ==>
      r == Failure(HttpError(400, "All components must be integers"))
  {
    if |parts| < 3 then Failure(HttpError(400, "Invalid weight_code format"))
    else
      var eid, etype, mode := ParseInt(parts[0]), ParseInt(parts[1]), ParseInt(parts[2]);
      var shift := if |parts| > 3 then ParseInt(parts[3]) else None;
      if eid.None? || etype.None? || mode.None? || (|parts| > 3 && shift.None?) then
        Failure(HttpError(400, "All components must be integers"))
      else
        Success(Cursor(eid.value, etype.value, mode.value, shift))
  }

  /**
   * get_new_weights: split on '_', at least three parts, every part read
   * with int(); parts beyond the fourth are ignored.  Anything else is a 400.
   */
  function ParseCursor(code: string): Result<Cursor, HttpError>
  {
    CursorOfParts(Split(code, '_'))
  }

  lemma CursorOfTypeCodeParts(c: Cursor)
    ensures CursorOfParts(TypeCodeParts(c.eid, c.etype, c.mode, c.shift)) == Success(c)
  {
    var parts := TypeCodeParts(c.eid, c.etype, c.mode, c.shift);
    ParseIntOfIntToString(c.eid);
    ParseIntOfIntToString(c.etype);
    ParseIntOfIntToString(c.mode);
    if c.shift.Some? { ParseIntOfIntToString(c.shift.value); }
  }

  /** Every generated code is a valid cursor for its own row. */
  lemma ParseCursorOfTypeCode(c: Cursor)
    ensures ParseCursor(TypeCode(c.eid, c.etype, c.mode, c.shift)) == Success(c)
  {
    var parts := TypeCodeParts(c.eid, c.etype, c.mode, c.shift);
    NoSeparatorInInt(c.eid);
    NoSeparatorInInt(c.etype);
    NoSeparatorInInt(c.mode);
    NoSeparatorInShiftPart(c.shift);
    assert parts == [IntToString(c.eid), IntToString(c.etype), IntToString(c.mode)] + ShiftPart(c.shift);
    SplitOfJoin(parts, '_');
    CursorOfTypeCodeParts(c);
  }

  lemma TypeCodeInjective(c1: Cursor, c2: Cursor)
    requires TypeCode(c1.eid, c1.etype, c1.mode, c1.shift) == TypeCode(c2.eid, c2.etype, c2.mode, c2.shift)
    ensures c1 == c2
  {
    ParseCursorOfTypeCode(c1);
    ParseCursorOfTypeCode(c2);
  }

  /** The sentinel that stands for a missing shift in the keyset comparison. */
  const NullShift: int := -999999

  function ShiftKey(s: Option<int>): int { if s.None? then NullShift else s.value }

  /** `(EventId, event_type, mode_val, COALESCE(hour_shift, -999999)) > (cursor)`, compared lexicographically. */
  predicate After(row: Cursor, cursor: Cursor)
  {
    row.eid > cursor.eid
    || (row.eid == cursor.eid && row.etype > cursor.etype)
    || (row.eid == cursor.eid && row.etype == cursor.etype && row.mode > cursor.mode)
    || (row.eid == cursor.eid && row.etype == cursor.etype && row.mode == cursor.mode && ShiftKey(row.shift) > ShiftKey(cursor.shift))
  }

  /**
   * The keyset order is strict and total on registry keys: a row never
   * follows itself, and of two different keys (shifts kept away from the
   * sentinel) exactly one follows the other; the row without a shift comes
   * before every shifted row of its (event, type, mode).
   */
  lemma AfterIsStrictTotal(a: Cursor, b: Cursor)
    requires a.shift.Some? ==> a.shift.value != NullShift
    requires b.shift.Some? ==> b.shift.value != NullShift
    ensures !After(a, a)
    ensures a != b ==> (After(a, b) <==> !After(b, a))
    ensures a.eid == b.eid && a.etype == b.etype && a.mode == b.mode && a.shift.None? && b.shift.Some? && b.shift.value > NullShift
      ==> After(b, a)
  {
  }

  /** A row of the event-type weights table. */
  datatype TypeRow = TypeRow(code: string, eid: int, etype: int, mode: int, shift: Option<int>)

  function KeyOf(r: TypeRow): Cursor { Cursor(r.eid, r.etype, r.mode, r.shift) }

  /**
   * `/new_weights`: the codes of the rows whose key follows the cursor read
   * from `code`, in table order (the SQL also sorts them), or the 400.
   */
  function NewWeights(table: seq<TypeRow>, code: string): (r: Result<seq<string>, HttpError>)
    ensures r.Failure? <==> ParseCursor(code).Failure?
    ensures r.Success? ==> forall i :: 0 <= i < |table| && After(KeyOf(table[i]), ParseCursor(code).value) ==> table[i].code in r.value
    ensures r.Success? ==> forall c :: c in r.value ==>
      exists i :: 0 <= i < |table| && table[i].code == c && After(KeyOf(table[i]), ParseCursor(code).value)
  {
    match ParseCursor(code)
    case Failure(e) => Failure(e)
    case Success(cur) => Success(CodesAfter(table, cur))
  }

  function CodesAfter(table: seq<TypeRow>, cur: Cursor): (r: seq<string>)
    ensures forall i :: 0 <= i < |table| && After(KeyOf(table[i]), cur) ==> table[i].code in r
    ensures forall c :: c in r ==> exists i :: 0 <= i < |table| && table[i].code == c && After(KeyOf(table[i]), cur)
  {
    if |table| == 0 then []
    else
      var rest := CodesAfter(table[1..], cur);
      assert forall i :: 1 <= i < |table| ==> table[i] == table[1..][i - 1];
      if After(KeyOf(table[0]), cur) then [table[0].code] + rest else rest
  }

  /** generate_rows_for_event: the rows of one event, in generator order. */
  function GenerateTypeRows(eid: int, etype: int, r: ShiftRange): seq<TypeRow>
  {
    var slots := Slots(etype == 1, r);
    seq(|slots|, i requires 0 <= i < |slots| =>
      TypeRow(TypeCode(eid, etype, slots[i].mode, slots[i].shift), eid, etype, slots[i].mode, slots[i].shift))
  }

  /** 2 codes, and 2 per hour more for type 1, pairwise distinct, each a valid cursor for its own row. */
  lemma GenerateTypeRowsFacts(eid: int, etype: int, r: ShiftRange)
    requires WellFormedRange(r)
    ensures var rows := GenerateTypeRows(eid, etype, r);
      && |rows| == RowsPerContext(etype == 1, r)
      && rows[0].mode == 0 && rows[0].shift.None? && rows[1].mode == 1 && rows[1].shift.None?
      && (forall i :: 0 <= i < |rows| ==> ParseCursor(rows[i].code) == Success(KeyOf(rows[i])))
      && (forall i :: 0 <= i < |rows| ==> ValidSlot(Slot(rows[i].mode, rows[i].shift), etype == 1, r))
      && (forall i, j :: 0 <= i < j < |rows| ==> rows[i].code != rows[j].code)
  {
    var rows := GenerateTypeRows(eid, etype, r);
    var slots := Slots(etype == 1, r);
    SlotsFacts(etype == 1, r);
    forall i | 0 <= i < |rows| ensures ValidSlot(Slot(rows[i].mode, rows[i].shift), etype == 1, r) {
      assert Slot(rows[i].mode, rows[i].shift) == slots[i];
    }
    forall i | 0 <= i < |rows| ensures ParseCursor(rows[i].code) == Success(KeyOf(rows[i])) {
      ParseCursorOfTypeCode(KeyOf(rows[i]));
    }
    forall i, j | 0 <= i < j < |rows| ensures rows[i].code != rows[j].code {
      if rows[i].code == rows[j].code {
        TypeCodeInjective(KeyOf(rows[i]), KeyOf(rows[j]));
      }
    }
  }

  /** A GROUP BY row of the calendar: event id and its number of occurrences. */
  datatype EventCount = EventCount(eid: int, count: int)

  datatype EventType = EventType(eid: int, etype: int)

  /** fetch_event_types: one (event, type) pair per counted event, in query order. */
  method FetchEventTypes(rows: seq<EventCount>) returns (out: seq<EventType>)
    ensures |out| == |rows|
    ensures forall i :: 0 <= i < |rows| ==> out[i].eid == rows[i].eid
    ensures forall i :: 0 <= i < |rows| ==> (out[i].etype == 1 <==> rows[i].count > 1)
    ensures forall i :: 0 <= i < |rows| ==> out[i].etype == EventTypeOf(Some(rows[i].count))
  {
    out := [];
    for i := 0 to |rows|
      invariant |out| == i
      invariant forall k :: 0 <= k < i ==> out[k] == EventType(rows[k].eid, EventTypeOf(Some(rows[k].count)))
    {
      var etype := if rows[i].count > 1 then 1 else 0;
      out := out + [EventType(rows[i].eid, etype)];
    }
  }
}
