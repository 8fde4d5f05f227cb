# Basic Market Checker — a Dafny model of its core

Basic Market Checker watches a list of stock symbols. For each symbol it:

- downloads a CSV file of daily bars from a market-data provider the first time
  it sees the symbol, and on each run merges fresh bars into a frame that it
  then discards;
- classifies the company into Discord roles: a market-cap band and a sector
  category;
- computes a few indicators: the 200- and 50-day moving averages of the adjusted
  close, the percent move since the last stored close, and today's volume
  against the 90-bar average;
- posts a message with the role mentions to the sector's Discord webhook for
  every indicator that fires.

This project models that core: the `Ticker` class of `ticker.py` and the
configuration readers, `process_indicators` and `send_to_discord` of
`__main__.py`.

The model is split into these modules:

- `Outcome` (outcome.dfy): `Option` and a `Result` whose errors are the
  exceptions the core raises, namely `KeyError(key)` and `IndexError`, plus
  `ZeroClose`. Python raises nothing for a zero reference close (the division
  gives an infinite move); `ZeroClose` stands in for that infinite move.
- `Text` (text.dfy): `str.upper`, `str.strip` (Python's whitespace set) and the
  first-comma search behind `str.split(',')`.
- `Config` (config.dfy): the `key,value` files (`roles.txt`, `hooks.txt`) read by a
  dict comprehension, where a later line wins.
- `Series` (series.dfy): a bar, `tail`, `mean`, `iloc` with negative positions,
  Python's `round(x, 2)` (ties to even), and the moving average, average volume
  and percent move.
- `Merge` (merge.dfy): the frame work of `update_data`. It drops today's stored
  rows when the stored series reaches today, appends the fetched rows, and
  applies `drop_duplicates(subset=['Date'])`, which keeps the first row of each
  date.
- `Classify` (classify.dfy): construction of a `Ticker`, with the upper-cased
  symbol, a market cap of -1 when the provider has none, and the hard-coded
  sector fallbacks. Also the sector table and `get_roles`.
- `Indicators` (indicators.dfy): the alert decisions, the mention string, the
  posts `process_indicators` makes, and its "any exception ends this ticker"
  behaviour.

Python exceptions become `Err` values. The provider's quote is an `Info` record whose
fields may be missing, the clock is a `today` parameter, downloaded bars are a
parameter, and a webhook call is recorded as a `Post(hook, content)` value.

Behaviour of the code worth noting:

- De-duplication by date keeps the first row (the stored one), not the most
  recently fetched.
- The sector table has eleven sectors mapping to ten categories (both consumer
  sectors map to "Consumer").
- A sector that is not in the table (such as the fallback "Unknown") raises
  `KeyError` in `get_roles`, so that ticker sends nothing.
- The webhook is looked up by the raw provider sector, not by its category.
- `update_data` computes the merged frame but never stores or returns it, so
  the indicators read the series as it was stored.
- The merged frame is not sorted by date (see Findings).

## Model

| member | source | states |
|---|---|---|
| Text.UpperChar | ticker.py:14 | the result is not a lower-case letter; a lower-case ASCII letter moves to its upper-case code, every other character is kept |
| Text.Upper | ticker.py:14 | same length as the input, each character the upper case of the input's character at that position (`UpperChar`), so no lower-case letter anywhere |
| Text.UpperIdempotent | ticker.py:14 | uppercasing an uppercased symbol changes nothing |
| Text.UpperFixesUpper | ticker.py:14 | a string with no lower-case letter is its own upper case |
| Text.IsSpace | __main__.py:14 | space, tab and newline are whitespace, and no whitespace character is a comma or a lower-case letter; the set is the one `str.strip()` removes |
| Text.SkipSpaces | __main__.py:14 | the first position at or after `i` that is not whitespace, with only whitespace before it |
| Text.TrimEnd | __main__.py:14 | the end of a prefix once its trailing whitespace is cut, with only whitespace after it |
| Text.StripLeft | __main__.py:14 | the result is a suffix of the input, does not start with whitespace, and only whitespace was cut |
| Text.StripRight | __main__.py:14 | the result is a prefix of the input, does not end with whitespace, and only whitespace was cut |
| Text.StripSpec | __main__.py:14 | `strip` yields a slice of the input with only whitespace cut on both sides, and neither end is whitespace |
| Text.StripCutsSpaces | __main__.py:14 | what `strip` cuts off on either side is whitespace, and the rest is a slice of the input |
| Text.StripEnds | __main__.py:14 | the stripped string neither starts nor ends with whitespace |
| Text.StripKeepsAbsent | __main__.py:14 | a character absent from the input is absent from the stripped string |
| Text.StripTrimmed | __main__.py:14 | a string with no whitespace at either end is unchanged by `strip` |
| Text.StripPadded | __main__.py:14 | whitespace on both sides of a trimmed string is exactly what `strip` removes |
| Text.StripLeftPadded | __main__.py:14 | leading whitespace before a string that starts with a non-space is exactly what the left strip removes |
| Text.StripRightPadded | __main__.py:14 | trailing whitespace after a string that ends with a non-space is exactly what the right strip removes |
| Text.Strip | __main__.py:14 | `str.strip()` is no longer than its input and neither starts nor ends with whitespace; `StripSpec` pins it as the slice left once only whitespace is cut |
| Text.FindFrom | __main__.py:14 | None exactly when the character does not occur from `i` on; otherwise its first position from `i` on |
| Text.Find | __main__.py:14 | None exactly when the character is absent; otherwise the index of its first occurrence |
| Config.KeyOfSpec | __main__.py:14 | `split(',')[0]` is a comma-free prefix of the line, shorter than the line exactly when the line has a comma, and followed by that comma |
| Config.KeyOf | __main__.py:14 | `split(',')[0]` is no longer than the line and is the whole line when the line has no comma; `KeyOfSpec` pins it as the text before the first comma |
| Config.FieldOfSpec | __main__.py:14 | `split(',')[1]` has no comma and, when the line has a comma, starts right after the key's comma and ends at the next comma or at the end of the line |
| Config.FieldOf | __main__.py:14 | `split(',')[1]` is no longer than the line and empty when the line has no comma (a case `ParseLine` rejects before reading it); `FieldOfSpec` pins it as the text after the first comma up to the next comma or the end of the line, and `SplitRoundTrip` reads a written field back |
| Config.ValueOf | __main__.py:14 | the stripped second field is no longer than the line and empty when the line has no comma; `ValueOfSpec` pins it as comma-free with no whitespace at either end |
| Config.ValueOfSpec | __main__.py:14 | the stripped value has no comma and no whitespace at either end |
| Config.ParseLine | __main__.py:14 | a line succeeds exactly when it has a comma (otherwise IndexError), giving (key, stripped second field) |
| Config.Collect | __main__.py:14 | the dict comprehension succeeds exactly when every line succeeds |
| Config.ConfigEntries | __main__.py:14 | one parsed entry per line, in line order |
| Config.CollectKeys | __main__.py:14 | the dictionary's keys are exactly the entries' keys |
| Config.CollectLastWins | __main__.py:14 | an entry whose key no later entry repeats determines that key's value |
| Config.ParseConfig | __main__.py:11-15 | reading a config file succeeds exactly when every line has a comma |
| Config.ParseConfigKeys | __main__.py:26-30 | the keys of the parsed file are exactly the lines' keys |
| Config.ParseConfigLastWins | __main__.py:26-30 | for a repeated key, the last line with that key gives its value |
| Config.SplitRoundTrip | __main__.py:14 | a comma-free key, a comma, a comma-free field and a tail starting with a comma split back into that key and that field |
| Config.ParseLineRoundTrip | __main__.py:14 | a comma-free key, a comma, padding, a trimmed comma-free value, trailing padding and further fields read back as exactly that key and value |
| Series.Tail | ticker.py:98 | `tail(k)` is the last min(k, n) rows |
| Series.Closes | ticker.py:98 | the adjusted-close column, row by row |
| Series.Volumes | ticker.py:110 | the volume column, row by row |
| Series.Mean | ticker.py:98 | a mean exists exactly for a non-empty series |
| Series.Min | ticker.py:98 | the least element, present in the series |
| Series.Max | ticker.py:98 | the greatest element, present in the series |
| Series.MovingAverage | ticker.py:94-104 | the moving average exists exactly when the window is positive and the series non-empty |
| Series.AverageVolume | ticker.py:106-116 | the average volume exists exactly when the series is non-empty |
| Series.SumBounds | ticker.py:98 | element bounds bound the sum by n times the bounds |
| Series.DivBounds | ticker.py:98 | a total between n·lo and n·hi divided by n lies between lo and hi |
| Series.MeanWithin | ticker.py:98 | element bounds bound the mean |
| Series.MeanBounds | ticker.py:98 | the mean lies between the least and the greatest element |
| Series.MovingAverageBounds | ticker.py:94-104 | the moving average lies between the least and greatest of the last min(days, n) closes |
| Series.SumRaise | ticker.py:110 | raising one element and keeping the others raises the sum |
| Series.DivStrict | ticker.py:110 | dividing by a positive count keeps a strict order |
| Series.TailVolumesAgree | ticker.py:110 | volumes that differ only before the last 90 bars leave the last 90 equal |
| Series.MovingAverageIgnoresOlderBars | ticker.py:98 | bars in front of a series of at least `days` bars do not change the moving average |
| Series.AverageVolumeWindow | ticker.py:106-116 | a higher volume in the last min(90, n) bars gives a strictly higher average volume, and one before them changes nothing |
| Series.Round2Monotone | ticker.py:133 | rounding to hundredths never reorders values |
| Series.Round2Exact | ticker.py:133 | a value already on a hundredth is unchanged by rounding |
| Series.Round2Thresholds | ticker.py:133 | the rounded move is at least 3 exactly when the exact move is at least 2.995, and at most -3 exactly when it is at most -2.995 |
| Series.Round2 | ticker.py:133 | `round(x, 2)` moves a value by at most half a hundredth; `Round2Exact`, `Round2Monotone` and `Round2Thresholds` pin it further |
| Series.Change | ticker.py:133 | the exact percent change inverts scaling: the price is the reference times one plus the change over 100 |
| Series.ILoc | ticker.py:91 | `iloc[j]` names a row exactly when -n <= j < n, counting negative positions from the end |
| Series.PercentMove | ticker.py:131-133 | fails exactly when `iloc[-days]` is out of range or the reference close is zero |
| Series.PercentMoveExample | ticker.py:131-133 | a price of 103 against a last close of 100 is a move of 3.0 |
| Series.ChangeSign | ticker.py:133 | against a positive reference, the change is positive, negative or zero exactly as the price is above, below or at it |
| Series.PercentMoveSign | ticker.py:131-133 | the rounded move never has the opposite sign of the price change, and is zero for an unchanged price |
| Series.PercentMoveRoundsToZero | ticker.py:131-133 | a price of 100.001 against a last close of 100 is above it yet rounds to a move of 0.0, so after rounding only "positive move implies higher price" holds, not the converse |
| Merge.Dates | ticker.py:152 | every row's date is in the set of dates |
| Merge.DatesFromRows | ticker.py:152 | every date in the set comes from some row |
| Merge.DatesAppend | ticker.py:151 | the dates of a concatenation are the union of the dates |
| Merge.MaxDate | ticker.py:142 | none exactly for an empty frame; otherwise a present date that no row exceeds |
| Merge.WithoutDate | ticker.py:148 | the filtered frame holds exactly the rows not dated `d` |
| Merge.OtherDatePositions | ticker.py:148 | exactly the positions of the rows not dated `d`, in increasing order |
| Merge.WithoutDatePositions | ticker.py:148 | the filtered frame is the rows at those positions, in their stored order |
| Merge.FilterDate | ticker.py:148 | the row-by-row filter computes `WithoutDate` |
| Merge.DropToday | ticker.py:145-148 | when the stored series reaches today, exactly the rows not dated today remain; otherwise the frame is unchanged |
| Merge.DropTodayOrder | ticker.py:145-148 | when today's rows are dropped, the remaining rows are stored rows at increasing positions |
| Merge.KeepFirst | ticker.py:152 | de-duplication never lengthens the frame; `KeepFirstPositions` pins it as the first row of each date in order |
| Merge.DropDuplicates | ticker.py:152 | the row-by-row loop with the set of dates seen so far computes `KeepFirst` |
| Merge.KeepFirstPrefix | ticker.py:151-152 | de-duplicating a front part gives a prefix of de-duplicating the whole concatenation |
| Merge.KeepFirstPrefersFront | ticker.py:151-152 | for a date present in the front part, the row kept for it comes from the front part |
| Merge.FirstPositions | ticker.py:152 | exactly the positions of the first row of each date, increasing |
| Merge.IsFirstPrefix | ticker.py:152 | whether a row is the first of its date depends only on the rows up to it |
| Merge.KeepFirstDates | ticker.py:152 | de-duplication keeps every date |
| Merge.LastIsFirst | ticker.py:152 | the last row is the first of its date exactly when no earlier row has that date |
| Merge.KeepFirstPositions | ticker.py:152 | the kept rows are exactly the first rows of their dates, in their original order |
| Merge.KeepFirstDistinct | ticker.py:152 | no two kept rows share a date |
| Merge.UpdateData | ticker.py:135-152 | the filter and de-duplication loops compute drop-today, then append, then keep-first |
| Merge.UpdateDataSpec | ticker.py:135-152 | the merge has distinct dates, exactly the dates of the trimmed stored frame and the fetched rows, keeps the stored row for a date present in both, and begins with the de-duplicated trimmed stored frame in its stored order |
| Merge.UpdateDataUnsortedExample | ticker.py:151-152 | a stored bar dated 10 and a fetched bar dated 8 merge as [10, 8], which is not in date order |
| Merge.ConsIncreasing | ticker.py:151-152 | a row dated before the head of an increasing series extends it |
| Merge.InsertByDate | ticker.py:151-152 | insertion adds exactly the one row |
| Merge.InsertByDateIncreasing | ticker.py:151-152 | inserting a row with a new date keeps a series strictly increasing |
| Merge.SortByDate | ticker.py:151-152 | sorting is a permutation |
| Merge.SortByDateIncreasing | ticker.py:151-152 | rows with pairwise different dates come out strictly increasing |
| Merge.SortedMerge | ticker.py:151-152 | the sorted merge is a permutation of the merge as written |
| Merge.SortedMergeSpec | ticker.py:135-152 | the sorted merge is in strictly increasing date order |
| Classify.SectorFallbackMapped | ticker.py:71-84 | exactly L, BF.B and CAT fall back to a mapped sector; every other symbol falls back to "Unknown" |
| Classify.SectorFallback | ticker.py:71-84 | the fallback sector is "Unknown" exactly for symbols other than L, BF.B and CAT |
| Classify.SectorTableShape | ticker.py:22-26 | in the sector table (`SectorTable`, the eleven entries of `_sector_dict`), both consumer sectors map to "Consumer", and "Unknown" is not a key |
| Classify.NewTicker | ticker.py:12-20 | the symbol is uppercased, a missing market cap becomes -1, a missing sector takes the fallback |
| Classify.NewTickerSymbolNormal | ticker.py:14 | the stored symbol is already upper case |
| Classify.CapRole | ticker.py:44-51 | each cap band holds exactly on its half-open interval with strict lower thresholds; no band at 300 million or less |
| Classify.CapRoleMonotone | ticker.py:44-51 | a larger market cap never gets a lower band |
| Classify.Roles | ticker.py:41-55 | KeyError(sector) exactly for a sector outside the table; otherwise one or two roles, ending with the category, with the cap band first exactly when there is one |
| Classify.GetRoles | ticker.py:41-55 | the if/elif chain with appends computes `Roles` |
| Classify.MissingCapNoCapRole | ticker.py:57-63 | a ticker whose market cap is missing gets only its category |
| Classify.MissingSectorRoles | ticker.py:71-84 | a ticker without a provider sector gets roles exactly when it is L, BF.B or CAT |
| Indicators.Alerts | __main__.py:50-73 | the alerts come in block order (200-day, 50-day, price, volume), at most one per block |
| Indicators.Cross | __main__.py:51-62 | at most one crossover alert, and one exactly when the price and the previous close lie strictly on opposite sides of the average |
| Indicators.Move | __main__.py:64-69 | at most one move alert, and none exactly for a move strictly between -3 and 3 |
| Indicators.Spike | __main__.py:71-73 | at most one volume alert, present exactly when the volume exceeds 1.5 times the average |
| Indicators.Excess | __main__.py:72 | the rounded excess is missing (rendered "inf") exactly for a zero average |
| Indicators.SpikeExcess | __main__.py:71-72 | a volume above 1.5 times a positive average is reported as at least 50 percent above it, after rounding |
| Indicators.CrossAlerts | __main__.py:51-62 | each crossover alert fires exactly on its strict cross, in its direction |
| Indicators.MoveAlerts | __main__.py:64-69 | "gained" fires exactly at a move of 3 or more, "lost" exactly at -3 or less, reporting the move |
| Indicators.VolumeAlerts | __main__.py:71-73 | the volume alert fires exactly above 1.5 times the average and reports the rounded excess |
| Indicators.CrossAboveExample | __main__.py:51-53 | yesterday 199, average 200, price 201 gives the cross-above alert first and no cross-below |
| Indicators.VolumeExcessExample | __main__.py:72 | a volume of 180 against an average of 100 is 80.0 percent above |
| Indicators.Mentions | __main__.py:81-83 | the mentions succeed exactly when every role has an id; otherwise a KeyError for a role without one |
| Indicators.Tag | __main__.py:83 | a role tag is the id with four characters around it, and the id is read back from between them |
| Indicators.MentionsAppend | __main__.py:81-83 | the mentions of concatenated roles are the concatenated mentions |
| Indicators.MentionsTwoRoles | __main__.py:81-83 | a cap band and a category give both tags, cap first |
| Indicators.MentionsPrefixErr | __main__.py:81-83 | the first missing role id decides the error for all the roles |
| Indicators.SendToDiscord | __main__.py:79-89 | the loop fails with the mentions' KeyError, or posts "mentions: message" to the hook |
| Indicators.MakeSnapshot | __main__.py:41-47 | the reads succeed exactly when the price and volume are present, the series is non-empty and its last close non-zero; the value of each number is stated by `MakeSnapshotFields` |
| Indicators.MakeSnapshotFields | __main__.py:41-47 | each snapshot number is its read: live price and volume, last stored close, rounded move since it, the two moving averages and the average volume |
| Indicators.MoveThresholds | __main__.py:43 | through rounding, "gained" fires exactly at an exact move of 2.995 percent or more and "lost" at -2.995 or less |
| Indicators.Posts | __main__.py:79-89 | one post per alert, to the hook, with the mentions in front of the rendered message |
| Indicators.Render | __main__.py:51-73 | every message is longer than the symbol, and every message except the volume one starts with it |
| Indicators.PostsAppend | __main__.py:50-73 | the posts of concatenated alerts are the concatenated posts |
| Indicators.Notify | __main__.py:53 | one send appends its post exactly when the mentions succeed |
| Indicators.CrossBlock | __main__.py:51-62 | one window's if/elif fails exactly when it has an alert to send and a role has no id; otherwise the posts become those of the alerts sent so far plus this window's crossover |
| Indicators.MoveBlock | __main__.py:64-69 | the price block fails exactly when it has a move alert and a role has no id; otherwise the posts become those of the alerts sent so far plus the move alert |
| Indicators.VolumeBlock | __main__.py:71-73 | the volume block fails exactly when it has a volume alert and a role has no id; otherwise the posts become those of the alerts sent so far plus the volume alert |
| Indicators.RunBlocks | __main__.py:49-73 | the four blocks in order post every alert of the snapshot when every role has an id, and nothing otherwise |
| Indicators.ProcessIndicators | __main__.py:32-77 | nothing is posted when the roles, the hook, a read or a role id fails; otherwise every alert is posted in order to the sector's hook with the mentions |

## Left out

- Network, files and logging are not modelled: `yf.download`, `yf.Ticker(...).info`,
  `pd.read_csv`, `to_csv`, `requests.post` and `logging`. Downloads, quotes and
  the date are parameters, and a post is a value.
- `get_tickers`, `process_all_tickers` and `main` are not modelled: the thread
  pool and asyncio orchestration, and the run timing. Each ticker is processed
  independently.
- `get_data`, the initial 41-week fetch, is not modelled. The stored series is a
  parameter.
- `Ticker.df` returning None for a missing file is not modelled: the series is
  always present.
- The two price reads and the repeated `info` fetches are one `Info` value.
  The model does not capture the provider answering differently between reads.
- Prices are exact reals, not binary floats. NaN results are not modelled, and
  neither are float formatting or the quirks of `round` on binary values. A
  parameter `show` renders a number.
- Series.PercentMove: a zero reference close is the error `ZeroClose`, which ends
  the ticker. Python instead divides to `inf` and can send a "gained inf%"
  alert.
- Indicators.MakeSnapshot: inherits the `ZeroClose` error above instead of an
  infinite move.
- Indicators.Excess: an average volume of zero gives `None`, rendered as "inf",
  in place of Python's infinite float.
- Text.UpperChar: maps only the ASCII letters a to z; Python's Unicode case
  mapping of other lower-case characters is not modelled.
- Text.Upper: only ASCII letters are uppercased. Python's Unicode case mapping,
  including characters that expand, is not modelled.
- Series.MovingAverage: the window is a natural number. `tail` with a negative
  count is never used by the program.
- Series.MovingAverage: a frame without an 'Adj Close' column, where
  `get_moving_avg` returns None (ticker.py:99-101), is not modelled. A `Bar`
  always has that column. In Python nothing is sent either: the 'Adj Close' read
  of `get_price(True)` (ticker.py:91) raises KeyError before any moving average
  is computed.
- Series.AverageVolume: a frame without a 'Volume' column, where
  `get_average_volume` returns None (ticker.py:111-113), is not modelled. A `Bar`
  always has that column. In Python the crossover and move alerts would still be
  sent before `None * 1.5` fails.
- Indicators.ProcessIndicators: a zero last close ends the ticker with
  `ZeroClose` before any alert, so nothing is posted. Python posts "gained inf%"
  and the other alerts that fire.
- Indicators.RunBlocks: a post never fails. A `requests.post` that raises
  (__main__.py:88) would end the ticker and skip the remaining alerts; the model's
  "every alert is posted" assumes it does not.
- `Ticker.get_volume` reads a CSV it does not use. Only the quote's volume field
  is modelled (in `MakeSnapshot`).
- The merged frame of `update_data` is modelled, but not writing it back. The
  code does not write it back either: it is discarded.

## Findings

| source | as written | input that shows it | evidently intended | confidence | as-written member | corrected member |
|---|---|---|---|---|---|---|
| ticker.py:151-152 | the merged frame is stored rows then fetched rows, de-duplicated, never sorted | stored bars dated [10], fetched [8], today 12: merged is [10, 8] | a series whose dates are strictly increasing | not executed; needs a gap in the stored history, and matters only once the merged frame is written back: `update_data` discards it (ticker.py:152 is its last line) | Merge.UpdateDataUnsortedExample | Merge.SortedMergeSpec |
