# Poker ledger — a Dafny model of the ledger pipeline

The ledger is a spreadsheet. Each row is one poker session and holds:
- a date;
- the buy-in;
- a rebuy text such as `Alice: 2, Bob: 1`;
- one column per player, holding the amount they cashed out.

`data.js` turns these rows into sessions (`cleanData`, with `parseRebuys`).
Each session lists its players with what they paid in, what they took out, and their net. `script.js` reads the sessions to compute:
- the attendance ranking of the players (`getPeopleFromLastNSessions`);
- the running net-worth lines of the chart (`accumulate`, `getDatasets`);
- each player's list of results (`getPeopleToSessions`);
- the statistics table and its four record cards (`getStats`);
- the consistency check, which reports sessions whose nets do not add up to zero (`validateTotal`).

This project models those functions and proves what they promise.

Modules, in dependency order:

- `Wrappers` (wrappers.dfy): `Option` and `Result`.
- `JsNumbers` (js_numbers.dfy): a JavaScript number is a finite value, held exactly as a `real`, or NaN.
  - Arithmetic on NaN gives NaN; NaN is neither `> 0` nor `< 0`, and it is `!= 0`.
  - `Round2` is `parseFloat(x.toFixed(2))`: the magnitude is rounded to the nearest hundredth, halves going up.
- `Seqs` (seqs.dfy): helpers on sequences.
  - `Dedup` gives the insertion order of an object's keys.
  - `Occ` counts occurrences.
  - `IndexOf` finds the first position of a value.
  - `SliceFromEnd` is `slice(-n)`, including `n = 0` (everything) and negative `n`.
- `Ledger` (ledger.dfy): `PersonResult` and `Session`. The `people` object of a session is a sequence in key order.
- `JsStrings` (js_strings.dfy): `trim`, `split` on one character, and `parseInt` without a radix.
  - `parseInt` skips white space, reads a sign and a `0x` prefix, and takes the longest digit prefix.
  - NaN is `None`.
- `Data` (data.dfy, modelling data.js): `SPECIAL_COLUMN_NAMES` (the constant `SpecialColumnNames`), `parseRebuys` and `cleanData`.
  - A row is a list of (column, text) cells in header order.
  - A thrown `TypeError` is an `Err`: from a segment without a colon, or from a row without a Rebuys column.
  - The error ends the whole load, as an uncaught exception does.
- `Series` (series.dfy, modelling script.js): `accumulate`, `getDatasets` and `getPeopleFromLastNSessions`.
- `Stats` (stats.dfy, modelling script.js): `getPeopleToSessions` and `getStats`.
  - Each of the four records is a fold of "replace when strictly greater" over candidates, in the order the loops visit them.
- `Consistency` (consistency.dfy, modelling script.js): `validateTotal`. It returns the console lines it would log.

Each loop of the source is a method whose `ensures` ties its result to a specification function. Lemmas state what that function means.

In these places the model follows the code exactly:
- A rebuy count is read by `parseInt`, which takes the leading digits: "1.5" reads as 1 and "2x" as 2.
- A count is NaN only when no digit follows its white space and sign, or when no hex digit follows a `0x` prefix ("0x", "0xg"). `rebuys.get(col) || 0` then reads it as no rebuy, so NaN never reaches the player's cash-in.
- A rebuy segment without a colon throws instead of producing NaN.
- `parseInt` is called without a radix, so a `0x` prefix is read as hexadecimal.
- `ProfitPerSession` divides the unrounded `net` by the number of sessions, not the rounded Profit.
- `getDatasets` cuts the window before taking running totals, so each plotted line starts again from the first session of the window.
- `slice(-n)` with `n = 0` keeps the whole ledger, not none of it.

## Model

| member | source | states |
|---|---|---|
| Data.ParseRebuys | data.js:37-47 | empty text gives the empty map; otherwise the result is the fold of the comma-separated segments, or the error the first segment without a colon throws |
| Data.DecodeItems | data.js:42-45 | the loop over the segments returns the fold of their decodings, stopping at the first that throws |
| Data.ErrorPersists | data.js:42-45 | once a segment has thrown, the later segments change nothing |
| Data.DecodeFails | data.js:42-45 | the fold fails exactly when some segment throws, and then with the TypeError of `undefined.trim()` |
| Data.SegmentFails | data.js:43-44 | a segment throws exactly when, trimmed, it has no colon |
| Data.SegmentsFail | data.js:42-44 | some segment throws exactly when some comma-separated item has no colon |
| Data.RebuysFail | data.js:37-47 | `parseRebuys` throws exactly when the text is non-empty and some segment has no colon |
| Data.RebuysTrailingComma | data.js:42-44 | a text ending in a comma throws, since its last segment is empty |
| Data.DecodeKeys | data.js:42-44 | the decoded map's keys are exactly the names the segments give |
| Data.TrimSegment | data.js:43 | trimming a well-formed segment drops exactly its outer white space |
| Data.SplitSegment | data.js:43 | a well-formed segment splits at its colon into the name and the count text |
| Data.TrimCount | data.js:44 | the count text, trimmed, is its decimal digits alone |
| Data.SegmentDecodes | data.js:43-44 | a segment `name: n`, padded with white space, decodes to the player `name` with count n |
| Data.EntriesDecode | data.js:42-44 | the comma-separated segments of a text made of well-formed segments are those segments, and each decodes to its name and count |
| Data.DecodeAll | data.js:42-45 | segments that all decode give a map whose keys are exactly their names, each with the count of its last segment |
| Data.RebuysOfEntries | data.js:37-47 | a text such as `a: 1, b: 2` decodes without error to the map from each named player to the count of the last segment naming them |
| Data.DecodeLastWins | data.js:44 | a segment not followed by another for the same name decides that name's count: a later segment overwrites an earlier one |
| Data.NormalizeRow | data.js:51-71 | one row gives the session dated by its Date cell with the players of its columns, or the error of its rebuy text or missing Rebuys column |
| Data.CollectPeople | data.js:55-70 | the column loop skips blank and reserved cells and stores one entry per other cell, in column order |
| Data.CleanData | data.js:48-74 | the loop over the rows returns the sessions of all rows, or the error of the first row that throws |
| Data.ErrorStops | data.js:50-72 | once a row has thrown, the later rows are never read |
| Data.MapUntilErrorSpec | data.js:50-72 | mapping until the first error fails exactly when some element fails, and otherwise maps every element in order |
| Data.CleanSessions | data.js:48-74 | `cleanData` throws exactly when some row does; otherwise it returns one session per row, in row order, each the one its row gives |
| Data.CleanedSession | data.js:48-74 | session i carries row i's Date, lists exactly the non-blank, non-reserved columns of row i, each once, each with the entry its cell, buy-in and rebuys give |
| Data.PeopleAreColumns | data.js:55-61 | a name is a player of the row exactly when some cell of that column is non-blank and not reserved |
| Data.EntriesFromCells | data.js:62-69 | every stored entry is the one a player cell gives: in = (rebuys + 1) × buy-in, out = the parsed cell, net = out − in |
| Data.PeopleDistinct | data.js:55-70 | distinct columns give each player once |
| Data.PeopleOfRow | data.js:55-70 | the players are exactly the non-blank, non-reserved columns, each once, each entry what its cell gives |
| Data.EntryOfRow | data.js:62-69 | the k-th entry's in, out and net are those of the cell its name looks up, with `rebuys.get(name) \|\| 0` |
| Data.LookupFinds | data.js:63 | looking up a column of a row with distinct columns gives that cell's text |
| Data.CashInIsMultiple | data.js:62 | with a numeric buy-in b ≥ 0 and no negative rebuy count, cash-in is m × b for a whole m ≥ 1 |
| Data.UnmatchedRebuysIgnored | data.js:62 | a rebuy entry whose name is no player column of the row changes no entry |
| JsStrings.TrimStart | data.js:43-44 | the result is a suffix, everything dropped is white space, and it does not start with white space |
| JsStrings.TrimEnd | data.js:43-44 | the result is a prefix, everything dropped is white space, and it does not end with white space |
| JsStrings.Split | data.js:42-43 | at least one piece, and no piece holds the separator |
| JsStrings.SplitJoin | data.js:42-43 | joining the pieces with the separator gives back the text |
| JsStrings.SplitCount | data.js:43 | there are two or more pieces exactly when the separator occurs |
| JsStrings.SplitTrailing | data.js:42 | a trailing separator leaves an empty last piece |
| JsStrings.SplitNoSep | data.js:43 | a text without the separator splits into itself alone |
| JsStrings.SplitCons | data.js:42-43 | the first separator ends the first piece, and the rest splits on its own |
| JsStrings.SplitTwo | data.js:43 | two pieces without the separator, joined by it, split back into those two |
| JsStrings.JoinSplit | data.js:42 | pieces without the separator, joined by it, split back into the same pieces |
| JsStrings.JoinLength | data.js:42 | a joined text is at least as long as its first piece |
| JsStrings.TrimEndSkips | data.js:43-44 | trimming the end drops exactly a trailing run of white space |
| JsStrings.TrimKeeps | data.js:44 | a text that neither starts nor ends with white space is its own trim |
| JsStrings.ParseDecimal | data.js:44 | `parseInt` reads back the decimal text of a natural number |
| JsStrings.DigitPrefix | data.js:44 | the longest prefix of digits: a prefix, all digits, followed by a non-digit or the end |
| JsStrings.Decimal | data.js:44 | the decimal text of a number: at least one digit, no leading zero |
| JsStrings.DecimalValue | data.js:44 | reading the decimal text of n gives n |
| JsStrings.DigitPrefixStops | data.js:44 | the digit prefix stops at the first non-digit |
| JsStrings.ParseIntDecimal | data.js:53 | `parseInt` reads back a natural number after leading white space and before any text that ends it |
| JsStrings.ParseIntNegative | data.js:53 | the same for a negative number written with a minus sign |
| JsStrings.MagnitudeDecimal | data.js:44 | the unsigned part of `parseInt` reads back the decimal text of a number |
| JsStrings.TrimStartSkips | data.js:44 | trimming the start drops exactly the leading white space |
| JsNumbers.SumPoison | script.js:158 | a running total is NaN exactly when some addend is, and otherwise equals the exact sum |
| JsNumbers.Round2Close | script.js:178-180 | rounding to cents moves a value by at most half a cent |
| JsNumbers.Round2IsZero | script.js:235-236 | a value rounds to 0 exactly when it is less than half a cent from 0 |
| JsNumbers.Round2Unit | script.js:179 | rounding keeps a ratio in [0, 1] |
| Seqs.SliceFromEnd | script.js:6 | `slice(-n)` is a suffix: the last min(n, length) elements for n ≥ 1, everything for n = 0, all but the first −n for n < 0 |
| Seqs.Dedup | script.js:8-11 | the insertion order of keys: no repeats, and exactly the values seen |
| Seqs.DedupSnoc | script.js:8-11 | a new key is appended and a known one changes nothing |
| Seqs.DedupOrder | script.js:16 | keys keep the order of their first visits |
| Ledger.FlattenMembers | script.js:6-7 | a name is visited exactly when some session lists it |
| Ledger.VisitsCountSessions | script.js:7-12 | since a session lists a player once, visits of a name count the sessions that player attended |
| Series.Accumulate | script.js:1 | same length as the input; entry i is the sum of the first i + 1 values |
| Series.CumulativeSteps | script.js:1 | for any non-empty input, the first total is the first value; each later total is the previous one plus its value |
| Series.GetDatasets | script.js:20-44 | the result is one dataset per name of `peopleSet`, in order, each the running totals of the last n values of its column |
| Series.Plot | script.js:36-43 | the last loop labels every name with the running totals of the last n values of its column |
| Series.PushSession | script.js:26-34 | one session pushes, for every occurrence of a name in `peopleSet`, its net if it played and 0 if not |
| Series.Column | script.js:26-34 | a column has one value per session and per occurrence of the name |
| Series.ColumnAt | script.js:27-32 | for a name selected once, value i is session i's net, or 0 when absent |
| Series.ColumnConcat | script.js:26-34 | the column of two runs of sessions is the two columns one after the other |
| Series.WindowThenColumn | script.js:40 | the last n values of a column are the column of the last n sessions, so the running sum starts again in the window |
| Series.SeriesShape | script.js:37-42 | for a name selected once and n ≥ 1: min(n, len) points; whenever there is a point, the first is the net of the window's first session (0 if absent), including a one-point window; each later one is the previous plus that session's net |
| Series.Label | script.js:37-42 | one dataset per name, in order, with that name's series |
| Series.CountVisits | script.js:5-14 | the keys are the names in first-visit order and each count is the number of visits in the window |
| Series.CountNames | script.js:7-13 | visiting one session's names keeps keys in insertion order and counts equal to visits |
| Series.TallyKnown | script.js:8-9 | visiting a known key raises only its count |
| Series.TallyNew | script.js:10-11 | visiting a new key appends it with count 1 |
| Series.VisitOne | script.js:7-12 | one more visit: the key joins the order if new, and only its count rises |
| Series.SortByCount | script.js:16 | a stable sort by descending count: a permutation of the distinct entries, counts non-increasing, ties in their original order |
| Series.InsertKeepsOrder | script.js:16 | inserting an entry after all entries with at least its count keeps the order descending and stable |
| Series.PeopleFromLastNSessions | script.js:3-17 | exactly the players of the last n sessions, each once, by non-increasing attendance, ties in first-visit order |
| Series.EntriesDistinct | script.js:16 | distinct keys give distinct entries |
| Series.RankedKeys | script.js:16 | the keys of the sorted entries are each player once, by non-increasing count, ties in first-visit order |
| Stats.PeopleToSessions | script.js:127-140 | the keys are the players in first-visit order, and each list is that player's (net, date) for the sessions they played, in order |
| Stats.GroupSession | script.js:130-137 | the inner loop adds one entry to the list of each player of the session, creating the list of a new player |
| Stats.GroupedStart | script.js:129-130 | before the inner loop, the lists hold the sessions done so far |
| Stats.GroupStep | script.js:131-136 | visiting a player appends the entry to a known list, or creates a one-entry list and key |
| Stats.OrderStep | script.js:132-135 | the key order is unchanged for a known key and extended for a new one |
| Stats.ListsKnown | script.js:132-133 | appending to a known player's list changes no other list |
| Stats.ListsNew | script.js:134-135 | a new player's list is its one entry |
| Stats.NetOfAt | script.js:131 | in a session listing each player once, `s.people[p]` is the entry at p's position |
| Stats.HistoryAbsent | script.js:132-135 | a player no session lists has no entries |
| Stats.HistoryLength | script.js:181 | a player's list has one entry per session they attended |
| Stats.HistoryNonEmpty | script.js:150-151 | every key of `peopleToSessions` has at least one entry |
| Stats.GetStats | script.js:142-190 | `perPersonStats` is one row per player in key order, built from their list; `overallStats` is the four record cards |
| Stats.ScanResults | script.js:155-169 | the inner loop gives the sum of the results, the number of results above 0, and the two single-session records after the player's results |
| Stats.TakeTotal | script.js:170-177 | a player's net replaces the chip leader when strictly greater, and the biggest loser when negative and strictly greater in magnitude |
| Stats.PersonRow | script.js:178-182 | the row is keyed by the player; Sessions is the length of the list; WinRatio lies in [0, 1]; Profit and ProfitPerSession are NaN exactly when a result is, and otherwise within half a cent of the exact sum and mean |
| Stats.FoldConcat | script.js:150-177 | offering two runs of candidates is offering the first run, then the second |
| Stats.FoldSnoc | script.js:159-177 | offering one more candidate is one more strict comparison |
| Stats.RecordBound | script.js:145-177 | a record starts at 0, never drops below 0, is at least every score offered, and keeps nobody exactly when no score is above 0 |
| Stats.RecordIsFirstMax | script.js:159-177 | a record that was taken holds the first highest positive score, with its player and date |
| Stats.RecordShows | script.js:145-177 | a record shows the first highest positive candidate, or amount 0, nobody and no date |
| Stats.RowsAt | script.js:178-182 | row k is the statistics of the k-th player, from that player's list |
| Stats.RowsLength | script.js:182 | one row per player |
| Stats.RowsStep | script.js:150-182 | the outer loop adds the next player's row |
| Stats.CandsStep | script.js:150-177 | the outer loop offers the next player's total and results |
| Stats.ScanStep | script.js:155-168 | the inner loop adds one result to the sum, the win count and the single-session candidates |
| Stats.WinsBound | script.js:157 | there are never more wins than results |
| Stats.PlayerSessions | script.js:181 | Sessions is the number of sessions the player attended |
| Stats.WinRatioUnit | script.js:179 | WinRatio lies in [0, 1] |
| Stats.ProfitClose | script.js:178-180 | Profit and ProfitPerSession are NaN exactly when some result is, and otherwise within half a cent of the exact sum and mean |
| Stats.OverallOrder | script.js:145-188 | four cards in order (chip leader, biggest win, biggest loser, biggest loss), carrying the texts "Chip Leader", "Biggest single session win", "Biggest Loser" and "Biggest single session loss", the first two ≥ 0 and the losses ≤ 0 |
| Stats.ChipLeaderShows | script.js:170-173 | the chip leader is the first player with the highest positive total, or nobody with amount 0 |
| Stats.BiggestWinShows | script.js:164-168 | the biggest single session win is the first highest positive result, with its player and date |
| Stats.BiggestLoserShows | script.js:174-177 | the biggest loser is the first player with the most negative total, shown negated, or nobody with 0 |
| Stats.BiggestLossShows | script.js:159-163 | the biggest single session loss is the first most negative result, with its player and date, shown negated |
| Stats.TotalUndated | script.js:145-146 | the two cards of totals carry no date |
| Stats.TotalCandsAt | script.js:170-177 | the k-th total candidate is the k-th player's net, in key order |
| Consistency.ValidateTotal | script.js:228-240 | the lines logged are the reports of the flagged sessions, in session order |
| Consistency.AddNets | script.js:230-233 | the inner loop gives the sum of the session's nets |
| Consistency.FlaggedIff | script.js:234-236 | a session is reported when a net is NaN; otherwise, exactly when the exact sum is at least half a cent from 0 |
| Consistency.ReportsFlagged | script.js:228-240 | at most one line per session; no line exactly when no session is flagged; every line belongs to a flagged session and every flagged session has one |
| Consistency.TotalIsOutMinusIn | script.js:231-233 | when every net is out − in, a session's total is total out − total in |
| Consistency.ConservedNotFlagged | script.js:229-239 | when every net is out − in and the cash-outs add up to exactly the finite cash-ins, the session is never reported |

## Left out

- `parseFloat` is a parameter of `Data.CleanData` and `Data.NormalizeRow`, not a model of the decimal-text parser. The model promises nothing about which strings it reads as numbers.
- Numbers are exact reals. The model leaves out binary floating point, its rounding of every sum, and the exponent form of `toFixed` for magnitudes of 1e21 and above.
- `Round2` rounds the exact value. `toFixed` rounds the binary double, which can differ at exact halves (1.005 is stored below 1.005).
- A JavaScript object lists integer-like keys (such as "12") first, in numeric order. The model keeps every key in insertion order, so it leaves out this reordering for player names that are integers.
- A JavaScript object's inherited prototype keys, such as `"constructor" in {}`, are left out.
- A row is a list of cells with distinct columns.
  - The source iterates the keys of the row object; the model walks this list in the same order.
  - `Data.CleanedSession`, `Data.PeopleDistinct` and `Data.PeopleOfRow` require distinct columns, because an object's keys are unique.
- `Stats.PeopleToSessions` and `Stats.GetStats` require every session to list each player once, because the source's `people` is an object.
  - Sessions built by `Data.CleanData` from rows with distinct columns have this property (`Data.PeopleDistinct`).
- `undefined` and `null` dates are both `None`.
- `Series.SortByCount` is an insertion sort, not the engine's sort. Since ES2019 `Array.prototype.sort` is stable, and a stable sort by count has only one result, so the output is the same.
- `validateTotal` writes to the console. `Consistency.ValidateTotal` returns the lines instead: each line's date and rounded discrepancy.
- `validateTotal` writes an implicit global `total`; that side effect is not modelled.
- Reading the sheet (`getSessions`, `fetch`, Papa Parse) is left out, and so is the embedded example data.
- The DOM, the chart, the grid table, the stat cards and the checkbox handling are left out.
- `Series.GetDatasets`, `Stats.GetStats` and `Consistency.ValidateTotal` keep their loops. Some inner loops are split into helper methods (`Series.PushSession`, `Stats.ScanResults`, `Stats.TakeTotal`, `Stats.PersonRow`, `Consistency.AddNets`) without changing the order of any step.
