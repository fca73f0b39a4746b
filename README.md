# Vlad event-context memory engine, modelled in Dafny

Vlad is a family of small services. Each answers one question: given a
target date, which weight codes does the market's or the economic
calendar's past behaviour around that date point to, and with what
values? Every service keeps an in-memory snapshot of its database. The
snapshot holds the weight-code registry, an index of recurring contexts,
the calendar or the classified price series, and six quote tables
(`brain_rates_*`). From that snapshot, `calculate_pure_memory` computes a
dictionary from weight code to value.

This project models the core of that engine in its six service variants:

- 23/server.py and 23/server_23.py: event types, with importance given as a word;
- 25/server.py: event types;
- 27/server.py: economic-event contexts;
- 30/server.py: ECB exchange-rate contexts;
- 31/server.py: market-instrument contexts;
- 32/server.py: event types, in five variants with a percentile size filter and a confidence factor.

It also models the offline generators that fill the index and weight
tables, and three small parsers: the SQL dump tool, the investing.com
calendar collector and the TradingView text extractor.

## Conventions

- Timestamps are whole seconds on one naive clock (`Dates.Hour` = 3600,
  `Dates.Day` = 86400).
- Prices, rates, sums and ratios are reals.
- `datetime.strptime` and `datetime.fromisoformat` are parameters: one
  partial parser per format. The model fixes the order in which formats
  are tried, the first success winning, and the stripping done first.
- The services' module-level dictionaries become one immutable record:
  `TypeEngine.Snapshot`, `EventEngine.EventSnapshot` or
  `MarketEngine.MarketSnapshot`. A query takes the snapshot as an argument
  and only reads it.
- The snapshot builds (`preload_all_data`) are classes (`EventStore`,
  `MarketStore`, `TypeStore.RankedStore`, `TypeStore.LabelledStore`).
  Their fields are those dictionaries. A method takes the rows of one
  database query, with `None` standing for a query that raised, and updates
  the fields that section of the build updates.
- A quote table's section is one `try` around the rates query, the row
  pass and the two extremum queries. `Candles.TableQuery` says which of
  them raised, and a row without an open or a close raises in the row
  pass, so a section can stop half-way; the model keeps what it had filed
  by then.
- An answer is built as a list of (code, value) contributions:
  - the 32, 25 and 23 services assign them (`result[k] = v`);
  - the 27, 30 and 31 services accumulate them (`result[k] += v`).

  `Rounding.Finalize` then drops every entry whose unrounded value is zero
  and rounds the rest half-to-even to six decimals.
- The 27 codes `{eid}__{f}__{s}__{a}__{mode}[__{hour}]` have no decoder in
  the repository. Their injectivity (`WeightCodes.EventCodeInjective`) is
  proved from the join alone (`WeightCodes.JoinDoubleInjective`), with no
  decoder. `WeightCodes.DecodeParts` is the market decoder of
  31/market_weights.py:110-135.
- The four weight builders share their `insert_rows` loop:
  - 31/market_weights.py:166-187;
  - 30/ecb_rate_weights.py:214-237;
  - 27/weights.py:109-133;
  - 25/weights.py:70-86.

  `Batching` models it once.

## Modules

| module | what it holds |
|---|---|
| `Wrappers` | Option and Result |
| `Text` | Python's `str()` of an int, `int()`, `float()` on decimal text, `strip`, `lower`, `split` and `replace` |
| `Dates` | `parse_date_string` of each service, and the step arithmetic on timestamps |
| `Rounding` | the zero filter and the rounding to six places |
| `Sorting` | stable `sorted(key=...)` |
| `Results` | the assign and accumulate folds and the error response |
| `Batching` | `insert_rows` of the weight builders |
| `Classify` | direction, trend and momentum labels of a price series, and the event direction rules |
| `Components` | the T1 sum and the extremum value in the five calculation variants |
| `ContextIndex` | the market and ECB context indexes, their counts, first and last times and averages |
| `Counts` | occurrence counts and event types read from the index tables |
| `EventIndex` | the event-context index statement of 27/inv_cal_event_indx.py |
| `WeightCodes` | the three code formats, their decoders, the registry generators and `/new_weights` |
| `Calendar` | the in-memory calendar and history, and the window, importance and history steps of an event query |
| `Candles` | the quote tables: t1 by date, candles, ranges, extrema, candle sizes and percentile thresholds |
| `EventEngine` | `calculate_pure_memory` of the 27 service |
| `MarketEngine` | `calculate_pure_memory` of the 31 and 30 services |
| `TypeEngine` | `calculate_pure_memory` of the 32, 25 and 23 services |
| `EventStore`, `MarketStore`, `TypeStore` | the snapshot builds |
| `SqlDump` | the SQL `VALUES` reader and writer of 23/cal_cyclical_events.py |
| `InvestingCal` | month chunking, the incremental start and the `safe_*` converters of parser/investing_cal.py |
| `TradingViewText` | `extract_text` of parser/tradingview_crypto.py |

Each loop of the source is a method. Its `ensures` ties the result, or the
new state, to a specification function. The properties the services
promise are lemmas about those functions.

## Model

| member | source | states |
|---|---|---|
| Text.IntToString | 25/weights.py:58-67 | `str(i)`: at least one character, starting with `-` exactly for a negative number |
| Text.ParseIntOfIntToString | 32/server.py:405-406 | `int()` reads back every integer that `str()` wrote, sign included |
| Text.IntToStringInjective | 25/weights.py:58-67 | two integers with the same decimal text are equal |
| Text.StripShape | 25/server.py:51 | `strip()` keeps the slice of the input that starts after the leading whitespace, and everything it cuts off on either side is whitespace |
| Text.StripIdempotent | parser/investing_cal.py:217 | stripping an already stripped string changes nothing |
| Text.Lower | parser/investing_cal.py:206 | `lower()` keeps the length and lowers each ASCII capital in place |
| Text.Upper | 23/cal_cyclical_events.py:53 | `upper()` keeps the length and raises each ASCII small letter in place |
| Text.ParseFloatOfIntToString | 27/server.py:130-134 | `float()` of the decimal text of an integer is that integer |
| Text.ParseFloatRejects | 27/server.py:130-134 | on plain decimal text, `float()` is a ValueError for a string that is empty or starts with neither digit, sign nor point |
| Text.ParseFloatRejectsBadFraction | 27/server.py:130-134 | `float()` is a ValueError for digits, a point and a fraction part ending in neither digit nor blank, such as "0.3%" |
| Text.Split | 32/server.py:401 | `split(sep)` returns at least one part and no part contains the separator |
| Text.SplitOfJoin | 31/market_weights.py:118 | splitting a join of separator-free parts gives back exactly those parts |
| Text.JoinOfSplit | 31/market_weights.py:118 | joining the parts of a split gives back the string |
| Text.ReplaceAppend | 23/cal_cyclical_events.py:136 | `replace` works piece by piece: the replacement of a concatenation is the concatenation of the replacements |
| Dates.FirstParse | 25/server.py:53-66 | no result exactly when every format rejects the string; otherwise the result of the first format that parses, every earlier one having rejected it |
| Dates.ParseDateIgnoresPadding | 25/server.py:51 | surrounding whitespace never changes what the stripping parser reads |
| Dates.LegacyAgrees | 23/server.py:40-47 | on a string without surrounding whitespace, whatever the two-format parser of the 23 services reads, the four-format parser reads the same timestamp |
| Dates.BothReject | 23/server_23.py:51-58 | a string every format rejects is an invalid date for the old and the new parser alike |
| Dates.DeltaUnit | 31/server.py:459 | the step is one day exactly when `day == 1`, one hour otherwise |
| Dates.DateOf | 30/server.py:411-412 | `.date()` is the midnight at or before the timestamp, in the same day |
| Dates.Days | 30/server.py:421 | `timedelta.days` is the floor of the offset in whole days |
| Dates.TruncDiv | 27/server.py:392 | `int(x / y)` rounds towards zero, from below for a non-negative x and from above for a negative one |
| Dates.TruncationVersusFloor | 27/server.py:392 | half an hour after the target is zero hours but minus one day away: the hourly and the daily shift round differently |
| Dates.WholeShifts | 27/server.py:392 | on whole multiples of the unit both shifts are exact |
| Rounding.RoundHalfEven | 31/server.py:530 | the integer chosen by `round` is within one half of the value, and even when the value lies exactly halfway |
| Rounding.Round6Error | 31/server.py:530 | `round(v, 6)` moves a value by at most half a unit of the sixth decimal |
| Rounding.Round6Idempotent | 31/server.py:530 | rounding a rounded value again changes nothing |
| Rounding.Finalize | 31/server.py:530 | a key is returned exactly when its accumulated value is not zero |
| Rounding.FinalizeClose | 27/server.py:443 | every returned value is the rounding of the accumulated one and lies within rounding error of it |
| Rounding.FinalizeNonNegative | 32/server.py:318 | when all accumulated values are non-negative so are all returned ones |
| Rounding.ZeroAfterRounding | 25/server.py:276 | the zero filter looks at the unrounded value: 0.0000001 survives it and is returned as 0.0 |
| Sorting.Insert | 27/server.py:194 | inserting into a sorted list keeps it sorted, adds exactly that element and grows the length by one |
| Sorting.SortBy | 27/server.py:212 | `sorted(rows, key=...)` is ordered by the key and is a permutation of its input |
| Sorting.BisectLeft | 27/server.py:289 | `bisect_left` on `[lo, hi)` returns a position inside that range |
| Sorting.BisectLeftSplits | 27/server.py:289 | on a list where the searched-for prefix property holds of a prefix only, `bisect_left` returns the length of that prefix |
| Sorting.BisectSplits | 31/server.py:503 | the whole-list search splits a partitioned list into the part below the value and the rest |
| Sorting.Earlier | 30/server.py:456-457 | the history cut is a prefix of the list |
| Sorting.EarlierIsPrefix | 31/server.py:503-504 | on a sorted history the cut keeps exactly the entries strictly before the target, in order |
| Sorting.BisectLeftStopsAfterBelow | 27/server.py:289 | whatever the order of the list, the search stops at the lower bound or just after an element that sorts below the value |
| Sorting.EarlierEndsBelow | 27/server.py:289-290 | even on an unsorted list, a non-empty cut ends with an entry strictly before the value |
| Sorting.SortInts | 27/server.py:194 | `list.sort()` on timestamps is sorted and a permutation of the list |
| Sorting.SortEach | 31/server.py:355-356 | sorting every history keeps the keys, and each list becomes sorted and keeps its elements |
| Sorting.SortIntsMembers | 30/server.py:309-310 | sorting neither adds nor drops a timestamp |
| Results.AssignOne | 32/server.py:307 | one assignment sets that key to that value |
| Results.AssignTwo | 25/server.py:265-274 | two assignments in a row apply in order |
| Results.AccumulateOne | 27/server.py:430 | one accumulation adds the value to what the key held, 0.0 for a new key |
| Results.AssignAppend | 23/server.py:204-214 | assigning two lists one after the other is assigning their concatenation |
| Results.AccumulateAppend | 31/server.py:517-528 | accumulating two lists one after the other is accumulating their concatenation |
| Results.AssignKeys | 32/server.py:307-316 | after the assignments a key is present exactly when it was there before or some entry wrote it |
| Results.AssignLastWins | 23/server_23.py:246-255 | the value an entry assigns stays when no later entry writes the same key |
| Results.AssignValueFrom | 25/server.py:265-274 | every assigned value is one some entry wrote, or the one that was there before |
| Results.AccumulateSums | 30/server.py:475-487 | from an empty dictionary, a key is present exactly when some entry names it, holding the sum of those entries' values |
| Results.AccumulateNonNegative | 27/server.py:430-441 | accumulating non-negative values into a non-negative dictionary keeps every value non-negative |
| Batching.Capacity | 31/market_weights.py:180 | a batch is flushed at no fewer than one row |
| Batching.InsertRows | 31/market_weights.py:176-187 | returns the number of rows; the executemany calls write every row once and in order, each call at least one and at most BATCH_SIZE rows, every call but the last a full batch, and no call at all for no rows |
| Batching.BatchCount | 30/ecb_rate_weights.py:214-237 | the number of calls is the number of rows divided by the batch size, rounded up |
| Batching.FullBatches | 27/weights.py:109-133 | full batches hold exactly their count times the batch size |
| Classify.Name | 31/market_context_idx.py:73-82 | every label is stored as a non-empty word of capital letters |
| Classify.LabelNamed | 31/market_weights.py:84-90 | a stored word is read back only as the label with that name |
| Classify.LabelNamedOfName | 31/market_weights.py:84-90 | reading back the stored name of a label gives the label |
| Classify.MarketThreshold | 31/server.py:85-93 | per-instrument thresholds are positive; an instrument outside the table gets the default 0.001 |
| Classify.DirectionLabel | 31/server.py:159-168 | UNKNOWN without both values or with a zero base; otherwise always one of the up, down and flat labels |
| Classify.DirectionLabelMeaning | 31/server.py:162-168 | with a non-zero base: up exactly when a − b exceeds threshold·\|b\|, down exactly when it is below −threshold·\|b\|, flat exactly in between |
| Classify.Sma | 31/server.py:153-156 | the moving average is missing exactly while idx < window − 1 |
| Classify.SumClosesBounds | 31/market_context_idx.py:85-88 | a sum of closes lies between count·min and count·max |
| Classify.MeanBounds | 30/ecb_rate_context_idx.py:71-75 | a mean of values within bounds is within those bounds |
| Classify.SmaWithinWindow | 31/market_context_idx.py:85-88 | an existing moving average lies between the smallest and the largest close of its window |
| Classify.ContextAtLabels | 31/server.py:171-191 | change and momentum labels are up/down/flat/UNKNOWN and trend labels above/below/at/UNKNOWN; no change label at index 0 and a known one later over a non-zero close; trend UNKNOWN exactly before the long window fills (or over a zero average); momentum UNKNOWN exactly before both windows fill (or over a zero long average) |
| Classify.ChangeAt | 31/market_context_idx.py:95-100 | the change is missing only at index 0 and otherwise takes the previous close to this one |
| Classify.ClassifyPoint | 30/server.py:128-161 | the labels of one point are those of the classification rules |
| Classify.ClassifyObservations | 31/market_context_idx.py:91-112 | one observation per input point, in input order, each with its timestamp, close, labels and change |
| Classify.ClassifyMarketObservations | 31/server.py:171-191 | one (timestamp, labels) pair per input point, in input order |
| Classify.EventDirection | 27/server.py:107-116 | UNKNOWN without both values; otherwise the first label exactly above b + 0.0001, the second exactly below b − 0.0001, the third in between |
| Classify.ResolveEventContext | 27/server.py:119-127 | forecast against previous gives up/down/flat, actual against forecast beat/miss/inline, actual against previous up/down/flat; a missing value makes the comparisons that use it UNKNOWN; BEAT exactly when actual exceeds forecast + 0.0001 |
| Components.VariantOf | 31/server.py:208-210 | variant 0 neither filters, squares nor uses ranges; the range variant always filters |
| Components.ComputeT1Value | 31/server.py:207-221 | the loop's total is the T1 component: over the dates kept by the range filter, the rate (0.0 when missing), its signed square, or the range excess, as the variant says |
| Components.Pool | 31/server.py:228-229 | the extremum pool holds exactly the dates that pass the range filter, and no more dates than the input |
| Components.PoolUnfiltered | 31/server.py:229 | without the filter the pool is the date list itself |
| Components.Matches | 31/server.py:238 | the match count is at most the pool size and is zero exactly when no pool date is an extremum |
| Components.ExtremumValue | 31/server.py:224-241 | never a zero value, and nothing for an empty pool |
| Components.T1Append | 30/server.py:466-475 | the T1 component of two date lists one after the other is the sum of their components |
| Components.T1OverPool | 31/server.py:212-215 | the filtered variants add the same terms as their unfiltered form over the pool |
| Components.T1PlainIsRateSum | 31/server.py:219-220 | variant 0 ignores the ranges and adds 0.0 for dates without a rate |
| Components.T1RangeExcess | 31/server.py:214-217 | the range variant is never negative and is positive exactly when some date's range exceeds the average |
| Components.T1SquareSign | 31/server.py:219-220 | the signed-square variants of non-negative rates are non-negative |
| Components.ExcessSumSign | 31/server.py:233-235 | over a filtered pool the extrema's range excess is non-negative and zero exactly when no pool date is an extremum |
| Components.RangeExtremum | 31/server.py:232-235 | for variant 4 the value is positive and missing exactly when no kept date is an extremum |
| Components.RatioBounds | 31/server.py:239 | with matches ≤ total the ratio lies in [−\|mod\|, \|mod\|] |
| Components.UnitFraction | 31/server.py:239 | matches/total lies in [0, 1] |
| Components.ScaledBound | 31/server.py:239 | a factor in [−1, 1] times k lies in [−\|k\|, \|k\|] |
| Components.RatioSign | 31/server.py:239 | with a positive factor the ratio is positive exactly when more than half the history matched, and zero exactly at one half |
| Components.ExtremumBounded | 31/server.py:224-241 | when the history counted is at least the number of dates, the ratio variants stay within the modification factor in absolute value |
| Components.ExtremumMajority | 31/server.py:236-241 | for the ratio variants with a positive factor the value exists exactly for a non-empty pool, existing history and matches other than half, and is positive exactly when more than half matched |
| ContextIndex.HasKeyCount | 31/market_context_idx.py:149-161 | a key occurs exactly when its count is positive |
| ContextIndex.AggregateCounts | 31/market_context_idx.py:149-161 | the aggregates hold exactly the keys seen, each counting the observations that carry it |
| ContextIndex.AggregateDomain | 30/ecb_rate_context_idx.py:143-156 | a key is aggregated exactly when some observation carries it |
| ContextIndex.AggregateSumClose | 31/market_context_idx.py:163 | sum_close is the sum of the closes of the key's observations |
| ContextIndex.AggregateSumChange | 31/market_context_idx.py:164-165 | sum_change adds only the key's defined changes |
| ContextIndex.AggregateSumAbs | 31/market_context_idx.py:164-166 | sum_abs adds the absolute values of only the key's defined changes |
| ContextIndex.AggregateFirst | 31/market_context_idx.py:151-158 | first_dt is the timestamp of the key's first observation |
| ContextIndex.AggregateLast | 31/market_context_idx.py:162 | last_dt is the timestamp of the key's last observation |
| ContextIndex.FirstNotAfterLast | 30/ecb_rate_context_idx.py:145-154 | for input ordered by time within each key, first ≤ last |
| ContextIndex.OnlyRecurring | 31/market_context_idx.py:171-174 | the filter keeps, unchanged, exactly the aggregates counted more than once |
| ContextIndex.OnlyRecurringMeaning | 30/ecb_rate_context_idx.py:170-172 | after the filter exactly the keys with more than one observation survive |
| ContextIndex.AveragesOf | 30/ecb_rate_context_idx.py:188-191 | every average is missing exactly when the count is zero |
| ContextIndex.AveragesTimesCount | 31/market_context_idx.py:189-198 | each stored average times the count gives back its sum |
| ContextIndex.SumBounds | 31/market_context_idx.py:163 | a sum of values within [lo, hi] lies within count·lo and count·hi |
| ContextIndex.MeanWithin | 31/market_context_idx.py:196 | a mean of values within [lo, hi] lies within [lo, hi] |
| ContextIndex.AverageCloseWithinCloses | 31/market_context_idx.py:196 | every stored row's average close exists and lies between the smallest and largest close of its key |
| ContextIndex.Tag | 31/market_context_idx.py:149-150 | each observation is filed under its entity, one for one |
| ContextIndex.AggregateAllAppend | 31/market_context_idx.py:126-166 | aggregating two streams one after the other is aggregating their concatenation |
| ContextIndex.StreamOfPrefix | 31/market_context_idx.py:126-147 | the stream of the first e + 1 entities extends that of the first e by entity e's classified series |
| ContextIndex.FoldObservations | 30/ecb_rate_context_idx.py:140-156 | the inner loop folds one entity's observations into the aggregates |
| ContextIndex.BuildContextIndex | 31/market_context_idx.py:124-174 | the builder's result is the aggregation of every entity's classified series, entity after entity, filtered to recurring keys when ONLY_RECURRING is set |
| Counts.IndexOfMeaning | 31/server.py:300-309 | a key is indexed exactly when some row has it, with the count (NULL read as 0) of the last row that has it |
| Counts.IndexOfNonNegative | 30/server.py:274-283 | without negative counts in the rows no indexed count is negative |
| Counts.TypesAreClassifiedCounts | 25/server.py:95-99 | the event types are the index counts, each reduced to 1 when greater than one and 0 otherwise |
| Counts.TypesAreBinary | 32/server.py:133-137 | every loaded event type is 0 or 1 |
| WeightCodes.Letter | 31/market_weights.py:84-90 | every label codes to one capital letter, and to "X" exactly when it is UNKNOWN or missing from its dictionary |
| WeightCodes.LabelOfLetterOfLetter | 31/market_weights.py:40-42 | the reverse dictionaries read every letter back as the label it codes, UNKNOWN for a label outside the dictionary |
| WeightCodes.ReadLetter | 31/market_weights.py:122-124 | a part decodes to a label only when it is that label's letter, and otherwise passes through unchanged |
| WeightCodes.MarketCodeExample | 31/market_weights.py:93-107 | the builder turns EURUSD, UP, ABOVE, UP, mode 0 into "EURUSD_U_A_U_0" |
| WeightCodes.DecodeParts | 31/market_weights.py:110-135 | fewer than five parts give no fields; otherwise the entity is the first part, the mode is the fifth read as an integer, and a shift exists exactly when a sixth part does |
| WeightCodes.DecodeOfMarketCode | 30/ecb_rate_weights.py:123-179 | decoding a built code gives back its entity, mode, shift and each label (UNKNOWN for one outside its dictionary) when the entity has no '_' |
| WeightCodes.DecodeMarketCodeExample | 31/market_weights.py:110-116 | the code for EURUSD, UP, ABOVE, UP, mode 0, shift 5 decodes to those fields |
| WeightCodes.MarketCodeInjective | 31/market_weights.py:93-107 | within one context, equal codes have the same mode and the same shift |
| WeightCodes.SlotsFacts | 31/market_weights.py:139-163 | a context has the two unshifted modes first, plus both modes for every shift of the range when it recurs, all distinct |
| WeightCodes.GenerateMarketRowsFacts | 30/ecb_rate_weights.py:182-211 | a context yields 2 rows, or 2 + 2 per shift when its count exceeds one, each coded from its own fields, with pairwise distinct codes |
| WeightCodes.RegistrySize | 31/market_weights.py:216-224 | the number of generated rows equals the estimate non_recurring·2 + recurring·(2 + 2·shifts) |
| WeightCodes.JoinDoubleInjective | 27/weights.py:77-79 | a "__"-join of parts without '_' determines its parts |
| WeightCodes.EventCodeInjective | 27/weights.py:77-79 | equal event codes come from the same event, labels, mode and hour |
| WeightCodes.GenerateEventContextRowsFacts | 27/weights.py:82-106 | an event context yields 2 rows, or 2 + 2 per hour of -12..12 when it recurs, with distinct codes built from their own fields |
| WeightCodes.EventTypeOf | 25/weights.py:43-55 | the type is 0 or 1, and 1 exactly when the count exceeds one |
| WeightCodes.TypeCodeExample | 25/weights.py:58-67 | the type codes have the form `{eid}_{type}_{mode}` with an optional `_{hour}` |
| WeightCodes.CursorOfParts | 25/server.py:363-375 | fewer than three parts give the 400 "Invalid weight_code format"; a part that is not an integer gives the 400 "All components must be integers"; otherwise the cursor holds the parts' values, with a shift exactly when a fourth part exists |
| WeightCodes.ParseCursorOfTypeCode | 32/server.py:399-408 | every generated type code parses back to its own key |
| WeightCodes.TypeCodeInjective | 25/weights.py:58-67 | distinct keys give distinct type codes |
| WeightCodes.AfterIsStrictTotal | 25/server.py:377-393 | the row-value comparison with the -999999 stand-in is a strict total order on keys, with the unshifted row before every shifted row of its key |
| WeightCodes.NewWeights | 32/server.py:399-421 | a bad code is the 400 of its cursor; otherwise the answer holds exactly the codes of the rows whose key follows the cursor |
| WeightCodes.GenerateTypeRowsFacts | 25/weights.py:58-67 | an event yields 2 codes, or 2 + 2 per hour when its type is 1, distinct, each parsing back to its own row's key |
| WeightCodes.FetchEventTypes | 25/weights.py:43-55 | one pair per counted event, in order, with type 1 exactly when the count exceeds one |
| Calendar.StepUnit | 27/server.py:366-370 | the window step is one hour exactly when day is 0, and one day otherwise |
| Calendar.CheckDates | 27/server.py:366-370 | the check dates are target + unit·k for k = lo..hi, in order, one per step |
| Calendar.KeptAt | 27/server.py:374-377 | a date's entry is kept exactly when its importance is not low or the date is the target |
| Calendar.EventsInWindowMeaning | 23/server.py:152-165 | an entry is in the window exactly when some check date lists it and it is not low or that date is the target |
| Calendar.EventsInWindowAppend | 27/server.py:373-377 | the window over two stretches of dates is the window over the first followed by the window over the second |
| Calendar.EventsInWindowLocal | 27/server.py:373-377 | the window depends only on the calendar's lists at the check dates |
| Calendar.CheckDatesSplit | 27/server.py:366-370 | the check dates over lo..hi are those over lo..mid-1 followed by those over mid..hi |
| Calendar.InWindowIsAtStep | 27/server.py:366-377 | in a calendar whose entries are filed under their own dates, every entry the window finds lies at one of its steps |
| Calendar.CollectEvents | 27/server.py:373-377 | the loop over check dates and their entries collects exactly the window |
| Calendar.ShiftOfStep | 27/server.py:391-392 | a release found at step k of the window has shift -k, in hours or in days |
| Calendar.ValidDates | 27/server.py:413 | the dates kept are exactly the history's dates before the target |
| Calendar.ValidDatesIgnoresLater | 27/server.py:413 | history dates at or after the target never change the dates a query uses |
| Calendar.ValidDatesOfSplit | 27/server.py:413 | on a history whose first i dates precede the target and the rest do not, the kept dates are the first i |
| Calendar.EarlierIsValidDates | 31/server.py:503 | on a sorted history the bisect prefix and the filter give the same dates |
| Calendar.Shifted | 27/server.py:417-421 | every kept date is moved by the same shift, in the same order |
| Calendar.LoadCalendar | 27/server.py:177-190 | the load loop leaves each event's history with its rows' dates appended and each date's list with its rows' entries appended |
| Calendar.LoadKeepsConsistent | 23/server.py:63-76 | loading rows keeps the history and the calendar in agreement: every entry under its own date, and a date in an event's history exactly when that date lists the event |
| Calendar.EmptyIsConsistent | 27/server.py:177-178 | the cleared maps agree |
| Candles.PairTable | 31/server.py:127-133 | pairs 3 and 4 read the BTC and ETH tables, and every other pair reads EUR/USD |
| Candles.RatesTableIsLoaded | 31/server.py:127-133 | every pair and flag names one of the six loaded tables; a flag other than 1 reads the hourly table |
| Candles.ModificationFactor | 31/server.py:136-137 | the factor is positive, and 1.0 for a pair other than 1, 3 and 4 |
| Candles.BeforeMeansEarlier | 31/server.py:248 | a (date, is_bull) tuple sorts before (target, False) exactly when its date is earlier |
| Candles.PrevCandleMeaning | 31/server.py:244-249 | on date-sorted candles the previous candle is none exactly when no candle precedes the target, and otherwise the latest candle before it |
| Candles.ByDate | 31/server.py:382 | the rows are walked sorted by date, a permutation of the query's rows |
| Candles.CandlesOf | 31/server.py:387-389 | one candle per row, in order, bullish exactly when the close exceeds the open |
| Candles.RatesOfMeaning | 31/server.py:385-386 | a date has t1 exactly when some row of it has a non-NULL t1, and then it is the last such row's |
| Candles.RangesOfDomain | 31/server.py:390-391 | every date of the table has a range, and only those |
| Candles.SumRangesBounds | 31/server.py:393-395 | the sum of n ranges lies between n times the smallest and n times the largest |
| Candles.AvgRangeBounds | 31/server.py:393-395 | the average range is 0.0 for an empty table and otherwise lies between the smallest and the largest range |
| Candles.NoAdjacentExtrema | 31/server.py:397-409 | with one row per date no two dates one unit apart are both local maxima (or minima) |
| Candles.ExtremumHasNeighbours | 32/server.py:193-202 | a local extremum is the date of a row that has rows exactly one unit before and after |
| Candles.TableOf | 31/server.py:371-413 | a loaded table's candles are sorted by date |
| Candles.LoadRows | 31/server.py:383-395 | the row loop files t1, candles and ranges up to the first row without an open or a close, that row's t1 included, says whether it got through every row, and takes the mean range only then |
| Candles.LoadTable | 31/server.py:371-413 | a table section is the sorted row pass, then the minima query, then the maxima query, each raise ending the section where it stands |
| Candles.PricedPrefix | 31/server.py:384-389 | the row pass gets as far as the first row lacking an open or a close, every row before it priced |
| Candles.TableOutcomes | 31/server.py:371-413 | a raised rates query leaves the table empty; with every row priced there is one candle per row, the mean range, and each extremum set whose query answered, the maxima lost with the minima; a row lacking a price leaves fewer candles than rows, no mean and no extrema |
| Candles.QueryExtrema | 25/server.py:156-167 | the minima query runs first and the maxima query second; a raise leaves its own set and the later one empty |
| Candles.TablesUpToHolds | 31/server.py:366-376 | after the table section each of its first n tables is present |
| Candles.RequestedTableLoaded | 31/server.py:366-376 | every table a query can name is present after the table section |
| Candles.Size | 32/server.py:179-181 | a candle size is never negative and is close - open or open - close |
| Candles.SizeList | 32/server.py:171-183 | the size list holds each row's size in row order |
| Candles.PercentileIndex | 32/server.py:188-190 | the percentile index lies inside the list |
| Candles.Thresholds | 32/server.py:185-191 | an empty table has no thresholds; otherwise it has one for each of 25, 50, 75 and 90 |
| Candles.IndexMonotone | 32/server.py:190 | a higher percentile never gives a lower index |
| Candles.ThresholdIsASize | 32/server.py:191 | every threshold is one of the sizes |
| Candles.ThresholdMonotone | 32/server.py:185-191 | a higher percentile never has a lower threshold |
| Candles.ThresholdNonNegative | 32/server.py:179-191 | no threshold of a table's sizes is negative |
| Candles.LoadSizes | 32/server.py:171-183 | the size loop builds exactly the sizes map and the size list of the rows |
| EventIndex.Case | 27/inv_cal_event_indx.py:68-77 | a CASE gives the result of the first arm whose condition is TRUE, NULL counting as not TRUE, and the ELSE value when no arm is TRUE |
| EventIndex.CaseDirectionIsEventDirection | 27/inv_cal_event_indx.py:68-97 | each CASE column, under SQL's NULL logic, computes the same direction as the service's absolute-threshold classifier |
| EventIndex.RowContextIsResolved | 27/inv_cal_event_indx.py:67-97 | the index's three directions of a row are the service's resolve_event_context, whenever the index reads the row's three text columns as the service's try_float does |
| EventIndex.PercentUnreadable | 27/server.py:130-134 | try_float of the text "0.3%" is no value |
| EventIndex.PercentReadingsDisagree | 27/inv_cal_event_indx.py:69-77 | as written, a forecast and a previous of "0.3%", which CAST reads as 0.3, are indexed FLAT while the service looks the release up as UNKNOWN |
| EventIndex.ParsedRowContextIsResolved | 27/server.py:119-134 | corrected, an index that reads the columns with try_float gives every row the service's context |
| EventIndex.Releases | 27/inv_cal_event_indx.py:114-119 | each calendar row is seen with its own group key, none for a NULL event_id, and its time |
| EventIndex.NoMembers | 27/inv_cal_event_indx.py:115-119 | a group with no members holds no row |
| EventIndex.GroupCounts | 27/inv_cal_event_indx.py:98-119 | the groups are exactly the keys of rows with an event_id, and COUNT(*) is the number of rows in the group |
| EventIndex.GroupBounds | 27/inv_cal_event_indx.py:99-100 | MIN and MAX of the occurrence times bound every time in the group |
| EventIndex.GroupAttained | 27/inv_cal_event_indx.py:99-100 | MIN and MAX are times of rows of the group |
| EventIndex.GroupByMeaning | 27/inv_cal_event_indx.py:98-119 | the groups are exactly the keys of rows with an event_id, with their row count and their earliest and latest times |
| EventIndex.ContextIndex | 27/inv_cal_event_indx.py:121-156 | after a run the table holds its old keys and the written groups (all, or with ONLY_RECURRING those counted more than once); a written group replaces its key's row, and every other key keeps its old row |
| EventIndex.InGroupMeaning | 27/inv_cal_event_indx.py:66-119 | a row is in a group exactly when it has that event_id and the service's context of its values, whenever the index reads its columns as the service does |
| EventIndex.RecurringGroups | 27/inv_cal_event_indx.py:156 | with ONLY_RECURRING, a first run into an empty table indexes a key exactly when at least two rows have it |
| EventIndex.StaleGroupKept | 27/inv_cal_event_indx.py:121-134 | a key no calendar row has any longer keeps its old row and counts, since the table is never emptied |
| EventIndex.UpsertOverrides | 27/inv_cal_event_indx.py:121-134 | a key the run writes carries this run's count, whatever the table held |
| EventIndex.NullEventIgnored | 27/inv_cal_event_indx.py:114 | a row with a NULL event_id changes no group |
| EventEngine.TryFloatReads | 27/server.py:130-134 | NULL reads as no value and a written-out integer as that number |
| EventEngine.TryFloatRejects | 27/server.py:130-134 | text float() rejects, empty or a word, reads as no value |
| EventEngine.FirstOwn | 27/server.py:296-302 | the first entry of the event on a date is none exactly when the date lists no entry of the event, and otherwise an entry of the event |
| EventEngine.FirstOwnAt | 27/server.py:298-302 | the scan of one date stops at the event's first entry |
| EventEngine.FindOwn | 27/server.py:298-302 | the inner loop returns that first entry |
| EventEngine.GetLastKnownContext | 27/server.py:281-303 | the loop returns the last known context: the bisect, the walk back over the dates and the per-date scan |
| EventEngine.OwnEntryListed | 27/server.py:177-190 | in a consistent snapshot every date of an event's history lists the event |
| EventEngine.KnownContextUnknown | 27/server.py:291-293 | with no release of the event before the date, the context is UNKNOWN on all three directions |
| EventEngine.KnownContextMeaning | 27/server.py:281-303 | in a consistent snapshot with sorted histories, the last known context is resolve_event_context of the event's entry at its latest release before the date |
| EventEngine.LatestIsLast | 27/server.py:290-296 | on a sorted history the latest date before the bound is the last date of the bisect prefix |
| EventEngine.ApplyRelease | 27/server.py:390-441 | one step of the result loop adds exactly the release's entries to the result |
| EventEngine.AddComponents | 27/server.py:425-441 | the two component steps add the mode-0 entry and then the mode-1 entry |
| EventEngine.AccumulateReleases | 27/server.py:389-441 | the result loop accumulates every entry of the window's releases, in order |
| EventEngine.CalculatePureMemory | 27/server.py:356-443 | the method computes the response: the date error, an empty answer for an empty window, and otherwise the rounded non-zero sums |
| EventEngine.AllFitAppend | 27/server.py:389-441 | two sequences of fitting entries fit together |
| EventEngine.ReleaseEntriesFit | 27/server.py:394-441 | every entry of one release fits its request |
| EventEngine.AllEntriesFit | 27/server.py:389-441 | every entry of the loop fits its request |
| EventEngine.EventWeightsShape | 27/server.py:399-443 | every returned code has mode 0 only for types 0 and 1, mode 1 only for types 0 and 2 and after a previous candle, the event's last known context, which the index holds, an hour of at most 12 steps exactly when that context recurs, and releases before the target; a type outside 0..2 returns nothing |
| EventEngine.AllNonNegativeAppend | 27/server.py:389-441 | two sequences of non-negative entries are non-negative together |
| EventEngine.ReleaseEntriesNonNegative | 27/server.py:312-354 | with calc_var 4 one release adds only non-negative values |
| EventEngine.AllEntriesNonNegative | 27/server.py:312-354 | with calc_var 4 the loop adds only non-negative values |
| EventEngine.RangeVariantNonNegative | 27/server.py:312-354 | with calc_var 4 no weight of the answer is negative |
| EventEngine.LastKnownLocal | 27/server.py:296-302 | the walk back depends only on the calendar's lists at the dates it visits |
| EventEngine.KnownContextLocal | 27/server.py:281-303 | the last known context depends only on what the snapshots share before the target |
| EventEngine.AllEntriesLocal | 27/server.py:389-441 | the loop's entries depend only on what the snapshots share up to the end of the window |
| EventEngine.EventWeightsLocal | 27/server.py:356-443 | the answer depends only on the calendar up to the window's end, the history before the target, the context index and the quote tables |
| MarketEngine.Unit | 31/server.py:459 | the step is an hour or a day, and always a day for the 30 service |
| MarketEngine.StepsOfStep | 31/server.py:461-475 | an observation at window step k is -k steps away, under the rounded quotient of the 31 service and the whole days of the 30 service |
| MarketEngine.TDates | 30/server.py:453-458 | the history maps to as many dates as it has |
| MarketEngine.SightingsAt | 31/server.py:469-475 | every sighting of a timestamp is a listed instrument with a context there, at its distance, and every listed instrument with a context there is sighted |
| MarketEngine.CollectSightings | 31/server.py:461-475 | the observation loops collect exactly the window's sightings |
| MarketEngine.StepSightingsFit | 31/server.py:461-475 | the sightings of window step k are observed contexts of listed instruments, k steps from the target |
| MarketEngine.AllSightingsFitAppend | 31/server.py:468-475 | fitting sightings of two stretches fit together |
| MarketEngine.SightingsFit | 31/server.py:461-475 | every sighting of the window dates fits, at most twelve steps away |
| MarketEngine.WindowSightingsFit | 30/server.py:414-424 | every sighting of the window is an observed context at most twelve steps from the target, at its distance |
| MarketEngine.ApplySighting | 31/server.py:487-528 | one step of the result loop adds exactly the observation's entries |
| MarketEngine.AddComponents | 31/server.py:512-528 | the two component steps add the mode-0 entry and then the mode-1 entry |
| MarketEngine.AccumulateSightings | 31/server.py:487-528 | the result loop accumulates every entry of the window's observations, in order |
| MarketEngine.CalculatePureMemory | 31/server.py:447-530 | the method computes the response: the date error, an empty answer without observations, and otherwise the rounded non-zero sums |
| MarketEngine.AllFitAppend | 31/server.py:487-528 | two sequences of fitting entries fit together |
| MarketEngine.AdmittedKeyFits | 31/server.py:487-528 | the code of an admitted observation fits its request, for any mode the type and the candle allow |
| MarketEngine.SightingEntriesFit | 31/server.py:487-528 | every entry of one fitting observation fits its request |
| MarketEngine.AllEntriesFit | 31/server.py:487-528 | every entry of the loop over fitting observations fits its request |
| MarketEngine.MarketWeightsShape | 30/server.py:432-489 | every returned code has mode 0 only for types 0 and 1, mode 1 only for types 0 and 2 after a previous candle, an indexed context, a shift of at most 12 steps exactly when that context recurs, an observation of that context that many steps before the target, and history before the target; a type outside 0..2 returns nothing |
| MarketEngine.CodeOfInjective | 31/market_weights.py:93-107 | for instruments without '_' and the classifier's labels, distinct keys render to distinct codes |
| MarketEngine.AllNonNegativeAppend | 31/server.py:487-528 | two sequences of non-negative entries are non-negative together |
| MarketEngine.SightingEntriesNonNegative | 31/server.py:207-241 | with calc_var 4 one observation adds only non-negative values |
| MarketEngine.AllEntriesNonNegative | 31/server.py:207-241 | with calc_var 4 the loop adds only non-negative values |
| MarketEngine.RangeVariantNonNegative | 31/server.py:207-241 | with calc_var 4 no weight of the answer is negative |
| MarketEngine.SightingsAtLocal | 31/server.py:469-471 | the sightings of a timestamp depend only on the contexts observed there |
| MarketEngine.SightingsLocal | 31/server.py:468-475 | the sightings of window dates depend only on what the snapshots share inside the window |
| MarketEngine.AdmitLocal | 31/server.py:488-503 | the gates depend only on the index and the histories before the target |
| MarketEngine.AllEntriesLocal | 31/server.py:487-528 | the loop's entries depend only on what the snapshots share |
| MarketEngine.MarketWeightsLocal | 31/server.py:447-530 | the answer depends only on the observations inside the window, the histories before the target, the index and the quote tables |
| TypeEngine.LabelType | 23/server.py:172-173 | a 23 release is recurring exactly when its importance is medium or high, and the type is 0 or 1 |
| TypeEngine.NeededEvents | 32/server.py:262-270 | the needed releases are window releases at their own shift, and every window release its type does not skip is needed |
| TypeEngine.SelectNeeded | 32/server.py:262-270 | the selection loop builds exactly the needed releases |
| TypeEngine.VarConfigs | 32/server.py:75-81 | exactly the variants 0..4 are configured, each with a symmetric window, a percentile from the thresholds' set exactly when its confidence is Bayesian |
| TypeEngine.ConfidenceOf | 32/server.py:83-87 | the confidence lies in 0..1, is 1 without a prior model, and the Bayesian one is 0 exactly without dates and below 1 for a positive prior |
| TypeEngine.ConfidenceGrows | 32/server.py:83-84 | more dates never lower the Bayesian confidence |
| TypeEngine.Filtered | 32/server.py:294-300 | a threshold of zero keeps every date; a positive one keeps exactly the dates whose candle size reaches it |
| TypeEngine.BigCandles | 32/server.py:295-298 | the dates kept are exactly those whose candle size reaches the threshold |
| TypeEngine.FilterNarrows | 32/server.py:294-300 | a higher threshold keeps a subset of the dates a lower one keeps |
| TypeEngine.RateSumIsPlainT1 | 32/server.py:305 | the rate sum equals the context engines' plain T1 component |
| TypeEngine.SumPresentRates | 25/server.py:260-265 | the loop adds exactly the rates present at the shifted dates |
| TypeEngine.TrendValueBounded | 32/server.py:308-315 | the mode-1 value never exceeds the modification factor in size |
| TypeEngine.TypedErrors | 32/server.py:234-241 | the 32 answer is an error exactly for an unreadable date or an unknown variant, the date error winning |
| TypeEngine.ApplyTyped | 32/server.py:284-315 | one step of the 32 result loop writes exactly the release's entries |
| TypeEngine.TypedOfShape | 32/server.py:302-315 | a release writes its mode-0 key, and its mode-1 key exactly when there is a previous candle and at least one filtered date |
| TypeEngine.AssignTyped | 32/server.py:283-315 | the 32 result loop writes every entry of the needed releases, in order |
| TypeEngine.CalculateTyped | 32/server.py:234-318 | the method computes the 32 response: the two errors, the empty answer, and otherwise the rounded non-zero weights |
| TypeEngine.ApplyRelease | 25/server.py:247-274 | one step of the 25 and 23 result loop writes exactly the release's entries |
| TypeEngine.AssignRelease | 23/server_23.py:230-255 | the 25 and 23 result loop writes every entry of the needed releases, in order |
| TypeEngine.CalculateRelease | 23/server.py:142-216 | the method computes the 25 and 23 weights for a readable date |
| TypeEngine.CalculateRanked | 25/server.py:195-276 | the method computes the 25 response |
| TypeEngine.CalculateLabelled | 23/server_23.py:187-257 | the method computes the 23 response |
| TypeEngine.FlatIsRelease | 32/server.py:294-315 | without a size filter and with confidence 1, a release contributes what it contributes in the 25 service |
| TypeEngine.AllFlatIsRelease | 32/server.py:284-315 | the same for all needed releases |
| TypeEngine.FlatWeights | 32/server.py:79 | the 32 weights of the flat configuration are the 25 weights |
| TypeEngine.Var4IsRanked | 32/server.py:234-318 | variant 4 of the 32 service answers exactly what the 25 service answers |
| TypeEngine.NeededAppend | 32/server.py:262-270 | the needed releases of two stretches are those of the first followed by those of the second |
| TypeEngine.NeededNone | 32/server.py:272-273 | releases that are all skipped leave nothing needed |
| TypeEngine.FarReleasesSkipped | 32/server.py:268-269 | with types 0 or 1 and entries under their own dates, every release more than twelve steps away is skipped |
| TypeEngine.WideWindowNeeded | 32/server.py:247-270 | the 24-step window needs exactly the releases the 12-step window needs |
| TypeEngine.WideWindowWeights | 32/server.py:78 | the 24-step window gives the weights of the 12-step window |
| TypeEngine.Var3IsVar0 | 32/server.py:75-78 | variant 3 answers exactly what variant 0 answers |
| TypeEngine.TypedEntriesGood | 32/server.py:289-315 | every entry of a needed release has a well-formed key, with mode 1 only after a previous candle and within the factor |
| TypeEngine.ReleaseEntriesGood | 25/server.py:253-274 | the same for a 25 or 23 release |
| TypeEngine.AllTypedGood | 32/server.py:284-315 | every entry of the 32 loop is good |
| TypeEngine.AllReleaseGood | 25/server.py:247-274 | every entry of the 25 and 23 loop is good |
| TypeEngine.FinalGood | 32/server.py:318 | good entries make a good answer after rounding |
| TypeEngine.TypedWeightsShape | 32/server.py:234-318 | every key of a 32 answer is well formed, a mode-1 key appears only after a previous candle, and mode-1 values stay within the factor |
| TypeEngine.ReleaseWeightsShape | 25/server.py:195-276 | the same for the 25 and 23 answers |
| TypeEngine.AllTypedSameValid | 32/server.py:285 | the 32 loop reads the history only through each event's dates before the target |
| TypeEngine.AllReleaseSameValid | 25/server.py:250 | the same for the 25 and 23 loop |
| TypeEngine.TypedIgnoresLaterHistory | 32/server.py:285 | releases at or after the target, added to an event's history, change no 32 weight |
| TypeEngine.TypedSameValid | 32/server.py:285 | histories with the same dates before the target give the same 32 weights |
| TypeEngine.ReleaseIgnoresLaterHistory | 23/server.py:189-190 | releases at or after the target change no 25 or 23 weight |
| TypeEngine.ReleaseSameValid | 25/server.py:249-250 | histories with the same dates before the target give the same 25 and 23 weights |
| EventStore.ReadAll | 27/server.py:179-190 | every calendar row is read, in order, with its readings through try_float |
| EventStore.SameDatesStayConsistent | 27/server.py:193-194 | histories holding the same dates per event, in any order, agree with the calendar as the originals do |
| EventStore.SortedHistoryStaysConsistent | 27/server.py:193-194 | sorting every history keeps it in agreement with the calendar and leaves it ascending |
| EventStore.EventStore.constructor | 27/server.py:139-143 | a fresh store is empty and valid |
| EventStore.EventStore.LoadWeightCodes | 27/server.py:145-148 | the weight codes become exactly the query's codes, in order |
| EventStore.EventStore.LoadIndex | 27/server.py:151-167 | the index is cleared and refilled from the rows, a NULL count read as 0 |
| EventStore.EventStore.LoadCalendar | 27/server.py:170-194 | calendar and history are cleared and refilled from the rows, every history sorted, and the two agree |
| EventStore.EventStore.LoadTable | 27/server.py:203-243 | one table is reset and loaded with extrema one hour apart, the others untouched |
| EventStore.EventStore.LoadTables | 27/server.py:197-243 | the six tables are loaded in order |
| EventStore.EventStore.Preload | 27/server.py:139-247 | the build leaves the codes, the index, the calendar with sorted histories and the six tables as the queries give them, and a valid store |
| MarketStore.ColumnSeries | 31/server.py:331-336 | an instrument's series has at most one point per history row |
| MarketStore.InstrumentsDistinct | 31/server.py:96-103 | the six instrument names are distinct |
| MarketStore.SplitColumns | 31/server.py:327-336 | the split loop builds every instrument's column series |
| MarketStore.Currencies | 30/server.py:295-301 | the currencies appear once each, exactly those of the rows, in first-appearance order |
| MarketStore.CurrencySeriesOfAbsent | 30/server.py:295-299 | a currency without rows has an empty series |
| MarketStore.GroupByCurrency | 30/server.py:295-299 | the grouping loop builds each currency's series and the key order |
| MarketStore.ParamsOf | 31/server.py:82-93 | both window lengths of the classifier are at least 1 |
| MarketStore.Labels | 30/server.py:147-160 | the classifier labels every point of the series |
| MarketStore.EmptyIsCoherent | 31/server.py:270-280 | the cleared observation maps agree |
| MarketStore.RecordKeepsCoherent | 31/server.py:350-354 | filing one classified point keeps the three maps in agreement |
| MarketStore.RecordSeriesKeepsCoherent | 31/server.py:350-354 | filing a series keeps the maps in agreement |
| MarketStore.RecordGroupsKeepsCoherent | 31/server.py:339-354 | filing all series keeps the maps in agreement |
| MarketStore.SortHistsFacts | 31/server.py:356-357 | sorting keeps the maps in agreement and leaves every context history ascending |
| MarketStore.ObservationsOfFacts | 30/server.py:301-310 | the observation section, from agreeing maps, leaves agreeing maps with sorted histories |
| MarketStore.RecordSeriesContexts | 31/server.py:350-351 | an instrument gets a context at exactly the timestamps of its labelled points |
| MarketStore.GroupsHavePointSnoc | 31/server.py:339-351 | a point of the groups is a point of the earlier groups or of the last one |
| MarketStore.LabelsAtPoints | 31/server.py:171-191 | the labels of a series sit at exactly the series' own timestamps |
| MarketStore.RecordGroupsContexts | 31/server.py:339-351 | after filing, a pair has a context exactly when it had one or some group has that point |
| MarketStore.ColumnSeriesPoints | 31/server.py:331-336 | an instrument's series has a point at a timestamp exactly when some row at that timestamp has a close for it |
| MarketStore.MarketContextsAreCloses | 31/server.py:314-354 | after the 31 build an instrument has a context at a timestamp exactly when some history row at that timestamp has a close for it |
| MarketStore.PreloadedValid | 31/server.py:269-357 | the observations a build leaves agree and every context history is ascending |
| MarketStore.GroupsSnoc | 31/server.py:339-351 | filing one more group extends the filed maps and the series by that group |
| MarketStore.MarketStore.constructor | 31/server.py:270-280 | a fresh store is empty and valid |
| MarketStore.MarketStore.Clear | 31/server.py:270-280 | the clear() calls empty every map |
| MarketStore.MarketStore.LoadWeightCodes | 31/server.py:286-293 | on success the codes are the query's codes; on failure they stay as they were |
| MarketStore.MarketStore.LoadIndex | 31/server.py:297-309 | on success the index is filled from the rows, a NULL count read as 0; on failure it stays |
| MarketStore.MarketStore.FileSeries | 31/server.py:350-354 | the filing loop of one series records every labelled point |
| MarketStore.MarketStore.FileGroup | 31/server.py:339-354 | a group keeps its series when it is not empty and files its classified points |
| MarketStore.MarketStore.LoadObservations | 30/server.py:287-315 | on success the observation section files every group and sorts the histories; on failure nothing changes |
| MarketStore.MarketStore.FileGroups | 31/server.py:339-354 | the loop over the groups files each of them in turn |
| MarketStore.MarketStore.LoadTables | 31/server.py:366-413 | the six tables are each reset and loaded, extrema one day apart |
| MarketStore.MarketStore.LoadTable | 31/server.py:371-413 | one table is reset, then holds what its section got to before any raise: nothing, a partial row pass, or the full pass with the extremum sets whose queries answered |
| MarketStore.MarketStore.Preload | 31/server.py:257-413 | the build leaves codes, index and observations as their queries give them or cleared when a query fails, each table as far as its section got, and a valid store |
| MarketStore.GroupsOf | 30/server.py:295-301 | the groups are the column split or the currency grouping of the rows |
| TypeStore.SizedTablesUpTo | 32/server.py:162-203 | the 32 table section leaves calendar, history and event types untouched |
| TypeStore.TablesKeepCalendar | 25/server.py:141-171 | the 25 and 23 table sections touch only the table maps |
| TypeStore.WithTableTables | 25/server.py:143-145 | a table load adds that table's rates and candles, whether or not its query succeeds |
| TypeStore.TableSection | 25/server.py:146-170 | the section gives the rates and candles the row pass filed, whether it got through every row, and then the extremum sets whose queries answered |
| TypeStore.WithTableOutcomes | 25/server.py:141-170 | a 25 or 23 table keeps its old extremum sets unless the row pass gets through every row, and then holds exactly the answered sets; it has fewer candles than rows exactly when a row lacks a price; calendar and history are untouched |
| TypeStore.TablesPresent | 23/server.py:87-121 | after the table section every loaded table has its rates and candles |
| TypeStore.SizedUpdateHolds | 32/server.py:166-191 | a 32 table load leaves that table with candles in date order and no negative threshold |
| TypeStore.SizedUpdateKeeps | 32/server.py:162-203 | a 32 table load leaves every other table as it was |
| TypeStore.SizedStepHolds | 32/server.py:162-203 | one more table load keeps every earlier table's shape |
| TypeStore.IndexMapDomain | 23/server_23.py:95-98 | a (name, country) pair is mapped exactly when an index entry has it |
| TypeStore.IndexMapValue | 23/server_23.py:95-98 | a mapped pair holds the event and importance of the last entry that has it |
| TypeStore.BuildIndexMap | 23/server_23.py:95-98 | the loop builds exactly index_map |
| TypeStore.JoinedMeaning | 23/server_23.py:105-121 | a calendar row is joined exactly when some brain event at that date has a pair the index maps to that event and importance |
| TypeStore.JoinEvents | 23/server_23.py:105-121 | the join loop builds exactly the joined rows |
| TypeStore.RankedStore.constructor | 32/server.py:124-127 | a fresh store is empty and valid |
| TypeStore.RankedStore.LoadWeightCodes | 25/server.py:75-84 | on success the codes are the query's; on failure they stay; no snapshot map changes |
| TypeStore.RankedStore.LoadEventTypes | 25/server.py:91-102 | on success the types are cleared and refilled from the counts, each 0 or 1; on failure nothing changes |
| TypeStore.RankedStore.AppendCalendar | 25/server.py:111-131 | the rows are appended to calendar and history, keeping them in agreement |
| TypeStore.RankedStore.LoadTable | 25/server.py:141-170 | rates and candles are reset and hold what the row pass filed; the extremum sets are replaced only when the row pass gets through every row, by those whose queries answered |
| TypeStore.RankedStore.LoadTables | 25/server.py:135-171 | the six tables are loaded in order |
| TypeStore.RankedStore.LoadSizedTable | 32/server.py:162-203 | one 32 table is loaded with its sizes merged and its thresholds recomputed |
| TypeStore.RankedStore.LoadSizedTables | 32/server.py:156-203 | the six 32 tables are loaded in order, each with sorted candles and no negative threshold |
| TypeStore.RankedStore.PreloadSized | 32/server.py:124-206 | the 32 build leaves the codes, the types, the cleared and refilled calendar and history, and the tables, in a valid store |
| TypeStore.RankedStore.PreloadRanked | 25/server.py:69-170 | the 25 build applies each of codes, types and calendar that succeeds, the calendar appended to, leaves each table as far as its section got, and keeps a valid store valid |
| TypeStore.LabelledStore.constructor | 23/server_23.py:61-62 | a fresh store is empty and valid |
| TypeStore.LabelledStore.LoadWeightCodes | 23/server_23.py:67-74 | on success the codes are the query's; on failure they stay |
| TypeStore.LabelledStore.AppendCalendar | 23/server.py:63-76 | the rows are appended to calendar and history, keeping them in agreement |
| TypeStore.LabelledStore.LoadTable | 23/server_23.py:134-162 | rates and candles are reset and hold what the row pass filed; the extremum sets are replaced only when the row pass gets through every row, by those whose queries answered |
| TypeStore.LabelledStore.LoadTables | 23/server.py:87-121 | the six tables are loaded in order |
| TypeStore.LabelledStore.PreloadJoined | 23/server_23.py:61-162 | a failed calendar or index read stops the build with the maps unchanged; otherwise the joined rows are appended and each table left as far as its section got |
| TypeStore.LabelledStore.PreloadJoinedSql | 23/server.py:49-121 | the 23 build appends the joined calendar when its query succeeds, then leaves each table as far as its section got |
| SqlDump.Clean | 23/cal_cyclical_events.py:51-61 | NULL in any case is None and only then; an int or float result is what int() or float() reads from an unquoted field with no '.' or with one; an unquoted text result is the field itself |
| SqlDump.KeepComplete | 23/cal_cyclical_events.py:117-124 | every row kept has one field per column, and no more rows than were read |
| SqlDump.ParseSqlValues | 23/cal_cyclical_events.py:27-62 | the field loop and the cleaning loop compute exactly the values parse_sql_values stands for |
| SqlDump.CleanAllSnoc | 23/cal_cyclical_events.py:51-61 | cleaning one more field appends its value |
| SqlDump.SplitSqlFields | 23/cal_cyclical_events.py:32-48 | the character loop and the last field give exactly the split fields |
| SqlDump.RowChar | 23/cal_cyclical_events.py:86-110 | one character of the row loop is one step of the row splitter |
| SqlDump.SplitRowStrings | 23/cal_cyclical_events.py:81-110 | the row loop gives exactly the cut rows |
| SqlDump.LastRow | 23/cal_cyclical_events.py:112-116 | a last row is kept only when wrapped in parentheses |
| SqlDump.ExtractRows | 23/cal_cyclical_events.py:79-128 | the rows read are exactly ReadRows of the block, each with one field per column |
| SqlDump.KeepCompleteMembers | 23/cal_cyclical_events.py:117-124 | a row survives exactly when it was read and has one field per column |
| SqlDump.KeepCompleteKeepsAll | 23/cal_cyclical_events.py:117-124 | when every row is complete none is dropped and the order stays |
| SqlDump.EscapeCons | 23/cal_cyclical_events.py:136 | the escaped body doubles each quote and each backslash, one character after the other |
| SqlDump.UnescapeEscape | 23/cal_cyclical_events.py:136 | a MySQL server reading the quoted body gets the original string back |
| SqlDump.EscapePlain | 23/cal_cyclical_events.py:136 | a string with no quote and no backslash is written unchanged between the quotes |
| SqlDump.StripToken | 23/cal_cyclical_events.py:40 | strip() leaves a written field as it is |
| SqlDump.CleanWrittenInt | 23/cal_cyclical_events.py:130-134 | an int is written as a bare field that the reader turns back into the same int |
| SqlDump.CleanWrittenText | 23/cal_cyclical_events.py:136 | a string with no quote and no backslash is written in quotes and read back as itself |
| SqlDump.CleanWritten | 23/cal_cyclical_events.py:51-61 | every writable value is written as a field the reader cleans back to the value |
| SqlDump.FieldsAfterAppend | 23/cal_cyclical_events.py:36-45 | the field scan of a + b is the scan of b after the scan of a |
| SqlDump.FieldsAfterPlain | 23/cal_cyclical_events.py:36-45 | characters that neither open a string nor cut a field go into the current field |
| SqlDump.FieldsAfterToken | 23/cal_cyclical_events.py:36-45 | a written field read from a fresh start becomes the current field |
| SqlDump.FieldsAfterCut | 23/cal_cyclical_events.py:39-43 | a written field and the comma after it make one field |
| SqlDump.FieldsAfterJoin | 23/cal_cyclical_events.py:36-45 | scanning joined written fields cuts all but the last and leaves the last open |
| SqlDump.SplitFieldsOfJoin | 23/cal_cyclical_events.py:32-48 | splitting written fields joined by commas gives them back, commas inside strings included |
| SqlDump.FinishJoined | 23/cal_cyclical_events.py:47-48 | the field left open at the end of a written row is its last value |
| SqlDump.FinishToken | 23/cal_cyclical_events.py:47-48 | a written field left open is taken as the last field unchanged |
| SqlDump.ParseValuesOfWritten | 23/cal_cyclical_events.py:27-62 | parse_sql_values reads a written row back to its values |
| SqlDump.RowsAfterAppend | 23/cal_cyclical_events.py:86-110 | the row scan of a + b is the scan of b after the scan of a |
| SqlDump.RowsAfterPlain | 23/cal_cyclical_events.py:86-110 | characters that change neither quotes nor depth nor cut a row go into the current row |
| SqlDump.RowsAfterToken | 23/cal_cyclical_events.py:86-110 | a written field goes into the current row |
| SqlDump.RowsAfterJoin | 23/cal_cyclical_events.py:86-110 | inside a row's parentheses the commas between written fields cut nothing |
| SqlDump.RowsAfterLine | 23/cal_cyclical_events.py:86-110 | a whole written line goes into the current row |
| SqlDump.StripLine | 23/cal_cyclical_events.py:98-103 | a line after a line break strips to itself and loses its parentheses |
| SqlDump.RowsAfterSnoc | 23/cal_cyclical_events.py:86-110 | the row scan is a left fold over the characters |
| SqlDump.CutStep | 23/cal_cyclical_events.py:97-104 | a row read up to its end is cut off at the comma after it |
| SqlDump.RowsAfterCut | 23/cal_cyclical_events.py:97-106 | a line and the separator after it are cut off as one row |
| SqlDump.RowsAfterLines | 23/cal_cyclical_events.py:86-110 | scanning several lines cuts each but the last |
| SqlDump.RowsAfterFirstLine | 23/cal_cyclical_events.py:86-110 | the first of several lines is cut off, leaving the rest to scan |
| SqlDump.InnersOfCons | 23/cal_cyclical_events.py:101-103 | the unwrapped rows of a list start with those of its first line |
| SqlDump.SplitRowsOfDump | 23/cal_cyclical_events.py:81-116 | the row splitter cuts a dump back into the value lists of its lines |
| SqlDump.DumpScan | 23/cal_cyclical_events.py:86-110 | the scan of a dump ends with every line but the last cut and the last still open |
| SqlDump.DumpFinish | 23/cal_cyclical_events.py:112-116 | the open line at the end of a dump is kept as the last row |
| SqlDump.InnersOfSnoc | 23/cal_cyclical_events.py:101-116 | the unwrapped rows are those of all lines but the last, then the last |
| SqlDump.FinishWrapped | 23/cal_cyclical_events.py:112-116 | a wrapped line left open after the loop is kept without its parentheses |
| SqlDump.ReadRowsOfDump | 23/cal_cyclical_events.py:65-136 | reading the dump of complete, writable rows gives the rows back |
| InvestingCal.PrevDay | parser/investing_cal.py:99 | the day before a date is again a date |
| InvestingCal.NextDay | parser/investing_cal.py:99 | the day after a date is again a date |
| InvestingCal.PrevDayOrdinal | parser/investing_cal.py:99 | subtracting one day lowers toordinal() by one |
| InvestingCal.NextDayOrdinal | parser/investing_cal.py:99 | adding one day raises toordinal() by one |
| InvestingCal.NextOfPrev | parser/investing_cal.py:99 | a day is the day after the day before it |
| InvestingCal.MinusDays | parser/investing_cal.py:335 | subtracting n days succeeds exactly when the ordinal exceeds n, and lowers it by n |
| InvestingCal.DaysBeforeYearGrows | parser/investing_cal.py:99 | each later year starts at least 365 days later |
| InvestingCal.MonthsBeforeGrow | parser/investing_cal.py:99 | each later month of a year starts after the earlier one ends |
| InvestingCal.OrdinalInYear | parser/investing_cal.py:99 | a date's ordinal lies within its year |
| InvestingCal.OrdinalOrder | parser/investing_cal.py:97-101 | date comparison is the comparison of ordinals, both for < and for == |
| InvestingCal.AddMonth | parser/investing_cal.py:87-91 | the result is the first day of the next month, December rolling into January |
| InvestingCal.BeforeFirstOfMonth | parser/investing_cal.py:97 | a date is before the first of a month exactly when it lies in an earlier month |
| InvestingCal.DayBeforeNextMonth | parser/investing_cal.py:98-99 | the day before the next month's first is the month's last day |
| InvestingCal.WindowFirst | parser/investing_cal.py:100 | max(start, cur) is start in start's month and cur afterwards |
| InvestingCal.WindowLast | parser/investing_cal.py:100 | min(end, last day) is end in end's month and the last day before it |
| InvestingCal.Window | parser/investing_cal.py:98-100 | a window lies in its month, begins at start in start's month and at the first otherwise, ends at end in end's month and at the last day otherwise, and is non-empty when start <= end |
| InvestingCal.PushInMonth | parser/investing_cal.py:100 | appending the window of the next month keeps every window in its month |
| InvestingCal.PushContiguous | parser/investing_cal.py:100 | appending a window that follows the last keeps the windows contiguous |
| InvestingCal.PushNonEmpty | parser/investing_cal.py:100 | appending a non-empty window keeps all windows non-empty |
| InvestingCal.ChunkStep | parser/investing_cal.py:97-101 | one iteration of the loop keeps what has been built so far correct |
| InvestingCal.MonthRanges | parser/investing_cal.py:94-102 | one window per month from start's month to end's, the first beginning at start and the last ending at end, each in its month, each beginning the day after the one before ends, all non-empty when start <= end; none when end lies in an earlier month |
| InvestingCal.WindowsAreOrdered | parser/investing_cal.py:94-102 | contiguous non-empty windows never overlap: each ends before every later one begins |
| InvestingCal.IncrementalStart | parser/investing_cal.py:333-342 | 1970-01-01 for an empty table; otherwise seven days before the latest date, raised to 1970-01-01, failing only where the date would leave the calendar |
| InvestingCal.Truncate | parser/investing_cal.py:196 | int() of a float rounds toward zero |
| InvestingCal.SafeInt | parser/investing_cal.py:192-198 | None for None, a list or an object; the integer read from a text; the int itself; 1 or 0 for a bool; a float cut toward zero |
| InvestingCal.SafeIntOfText | parser/investing_cal.py:192-198 | an integer sent as text is read back whole |
| InvestingCal.SafeBool | parser/investing_cal.py:201-211 | None for None, a bool as it is, otherwise True or False exactly for the listed words of the stripped lower-cased text, None for any other text |
| InvestingCal.LowerOfIntToString | parser/investing_cal.py:205 | lower-casing the text of an integer leaves it unchanged |
| InvestingCal.NumeralWords | parser/investing_cal.py:206-209 | among the words, the text of an integer can only be "1" or "0" |
| InvestingCal.IntToStringStart | parser/investing_cal.py:205 | the text of an integer starts with a digit or '-' |
| InvestingCal.OneAndZero | parser/investing_cal.py:206-209 | an integer's text is "1" or "0" exactly for 1 and 0 |
| InvestingCal.SafeBoolOfInt | parser/investing_cal.py:201-211 | an integer flag is True for 1, False for 0 and None otherwise |
| InvestingCal.SafeStr | parser/investing_cal.py:214-220 | None exactly for None and for blank text; otherwise the stripped text, cut to the width |
| InvestingCal.ImportanceOf | parser/investing_cal.py:304 | 1 to 3, 2 exactly for "medium" and 3 exactly for "high" in any case |
| InvestingCal.FirstTruthy | parser/investing_cal.py:303 | `a or b or c` gives the first truthy value, else the last |
| InvestingCal.EventColumnsOf | parser/investing_cal.py:302-314 | the event's columns fit their VARCHAR widths; an unknown event gives all NULL and importance 1 |
| InvestingCal.ReadingColumnsOf | parser/investing_cal.py:305-326 | the occurrence's text columns fit their VARCHAR widths |
| InvestingCal.OccurrenceToRow | parser/investing_cal.py:297-326 | no row exactly when the occurrence id is not an integer; otherwise the row has that id, the event id read as an integer, every text column within its VARCHAR width and the importance 1 to 3, and the event's columns empty when the event is unknown |
| TradingViewText.ExtractText | parser/tradingview_crypto.py:88-102 | nothing for a non-object; a text node reads as its text and one space |
| TradingViewText.ExtractIsStripped | parser/tradingview_crypto.py:102 | apart from a text node's, the extracted text has no whitespace at either end |
| TradingViewText.Extract | parser/tradingview_crypto.py:88-102 | the recursion and the loop over the children compute exactly ExtractText |
| TradingViewText.StripSnocSpace | parser/tradingview_crypto.py:97-102 | a whitespace character appended before strip() makes no difference |
| TradingViewText.StripAppendLineEnd | parser/tradingview_crypto.py:100-102 | the block newline appended before strip() makes no difference |
| TradingViewText.ChildrenTextOfWords | parser/tradingview_crypto.py:95-97 | plain string children gather as the strings joined by spaces, with a space after the last |
| TradingViewText.ExtractOfWords | parser/tradingview_crypto.py:88-102 | a node of plain strings reads as the strings joined by single spaces and stripped |
| TradingViewText.BlockNewlineDropped | parser/tradingview_crypto.py:100-102 | a paragraph, list item or heading reads exactly as the same node without a kind: its newline is always stripped off |
| TradingViewText.ParagraphText | parser/tradingview_crypto.py:88-102 | a paragraph of one word reads as the word |
| TradingViewText.ParagraphsRunTogether | parser/tradingview_crypto.py:95-102 | two paragraphs "a" and "b" in a row read as "ab" |
| TradingViewText.ExtractLines | parser/tradingview_crypto.py:88-102 | the corrected extractor: a block that reads as anything ends in a newline |
| TradingViewText.ParagraphsOnTwoLines | parser/tradingview_crypto.py:95-102 | corrected, two paragraphs "a" and "b" read as "a", a newline, "b" |
| TradingViewText.InlineLines | parser/tradingview_crypto.py:93-102 | corrected, a node that is neither text nor a block still reads as its children's text stripped |
| TradingViewText.TwoParagraphLines | parser/tradingview_crypto.py:95-101 | corrected, the children of two paragraphs gather as each word followed by a newline |
| TradingViewText.ParagraphLine | parser/tradingview_crypto.py:100-102 | corrected, a paragraph of one word reads as the word and a newline |

## Left out

- Database access is not modelled: engines, connections, SQL sent only to fetch rows, `get_metadata` and `patch_service`. The rows a query returns are method inputs, and `None` stands for a query that raised.
- The web layer is not modelled: FastAPI routing, `Query` validation, `lifespan` and the uvicorn entry points.
- `background_reload_data` is not modelled. It is asyncio scheduling and cancellation; each reload is one of the modelled builds.
- `send_error_trace` is not modelled in any file. It is an HTTP alert.
- The scrapers and collectors are network, browser and library I/O and are not modelled:
  - parser/investing_crypto_news.py, RSS.py, parser/Binance_news.py and ECB_parser.py;
  - both TradingView.py, both treasury_gov.py, data_gov.py and parser/BEA.py;
  - `get_news` and `save_data` in parser/tradingview_crypto.py;
  - `request_json_with_retries`, `fetch_all_pages_for_range` and the `DB` class in parser/investing_cal.py.
- 25/inv_cal_cyclical_events.py is a single SQL GROUP BY. Its rule (a count above one means recurring) is the event-type rule of `Counts`.
- From 23/cal_cyclical_events.py, only the reader and the writer are modelled. Left out:
  - reading the file, and the `re.search` that finds the `VALUES` block (the model starts from the block);
  - the pandas grouping and merge;
  - the md5 keys;
  - the DDL text.
- Library parsers are parameters, not models:
  - `datetime.strptime` and `datetime.fromisoformat`;
  - timezone conversion (`astimezone`);
  - Python's repr of a float (`floatText` in `SqlDump.Written`).
- Binary floating point is not modelled. Sums, means and ratios are exact reals. `round(v, 6)` is round-half-even on the exact value, not on the nearest double.
- `float()` is modelled on plain decimal text only: no exponent, `inf` or `nan`. `int()` is modelled without `_` digit grouping.
- Text.ParseFloatRejects: Python's `float()` also reads "inf", "nan" and "infinity", in any case and with a sign, which start with a letter; the lemma is about the plain decimal reading only.
- `str.lower()` and `str.upper()` are modelled on ASCII letters only.
- `InvestingCal.ValidDate` does not stop at year 9999, the upper end of `datetime.date`.
- InvestingCal.OccurrenceToRow: the `INT` and `BIGINT` ranges of the numeric columns are not modelled. Its contract bounds the text columns, by their `VARCHAR` widths, and the importance.
- Python set iteration order is modelled as the order in which the loader added the elements:
  - the instruments seen at a timestamp (`GLOBAL_MKT_OBS_DTS`);
  - the dates of the ECB service (`GLOBAL_ECB_OBS_DATES`).

  The engines only add up what they find in these sets, so the order does not change a result.
- WeightCodes.NewWeights: states which codes are returned, not their order. The SQL sorts a row without a shift after the shifted rows of its (event, type, mode), while its comparison treats the missing shift as -999999, which is below every shift. The endpoint returns every row after the cursor, with no `LIMIT`, so the mismatch loses no row.
- SqlDump.ReadRowsOfDump: the round trip is stated only for strings with no quote and no backslash. For other strings the reader and the writer disagree:
  - the reader keeps a doubled quote `''` as two quotes;
  - the reader ignores a quote that follows a backslash, so a string ending in a backslash is written as `\\'`, and that closing quote is not seen.

  The dump that `main` writes also has a twentieth column, `EventId`, which the nineteen-column reader would drop. The lemma is about the value encoding of rows with the reader's columns.
- EventStore.Preload: modelled with every query succeeding. The 27 build catches nothing, so a raising query would end it with the earlier sections loaded.
- TypeStore.RankedStore.PreloadSized: modelled with every query succeeding, for the same reason in the 32 build.
- EventIndex.ContextIndex: the reading `cast` of CAST(... AS DECIMAL(18,6)) is a parameter. In strict SQL mode a text with no numeric reading makes the whole INSERT ... SELECT fail instead; that outcome is not modelled. The average, currency, name and category columns of the index are not modelled.
- Candles.PercentileIndex: `int(n * pct / 100)` is computed in floating point. The model uses exact integer division, which agrees while `n * pct` stays below 2^53.

## Findings

| source | as written | input that shows it | evidently intended | confidence | as-written member | corrected member |
|---|---|---|---|---|---|---|
| 27/inv_cal_event_indx.py:69-97 | the index reads actual, forecast and previous with CAST(... AS DECIMAL(18,6)), while 27/server.py:130-134, documented as the same logic, reads them with float(); the two disagree on text such as "0.3%", "215K" or a value with more than six decimals, and the service's index lookup then misses | a release whose forecast and previous are both "0.3%": the index files it under FLAT, the service looks it up under UNKNOWN | both sides read the text the same way, so that the index's key of a release is the service's | not executed | EventIndex.PercentReadingsDisagree | EventIndex.ParsedRowContextIsResolved |
| parser/tradingview_crypto.py:100-102 | the newline added after a paragraph, list item or heading is removed at once by the `strip()` that follows, so a block never ends in a newline and consecutive blocks run together | a node with two paragraph children holding "a" and "b" gives "ab" | each block on a line of its own: "a\nb" | not executed | TradingViewText.ParagraphsRunTogether | TradingViewText.ParagraphsOnTwoLines |
