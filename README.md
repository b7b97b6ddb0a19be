# edgekit trade normalisation, modelled in Dafny

edgekit is a set of Streamlit dashboards that read a broker's trade export (CSV) and
show the trades, a running P&L and some breakdowns. The logic under the dashboards is
a thin layer that normalises the uploaded table. This project models that layer and
proves what it promises:

- `fifo_matcher.dfy` (module `FifoMatcher`) is `process_webull` of
  `edgekit_app_v3.py`. It keeps the Filled rows, strips '@' from prices and
  lower-cases the side. It then walks the orders in file order through a `LotBook`
  class. The class holds the per-symbol queues of open lots (`positions`, a map of
  sequences) and the realized P&L of each order (`trades`). A sell runs the source's
  `while` loop against the head of its symbol's queue. The loop is proved against a
  specification function `Sell`, and `Sell` is proved against an independent FIFO
  statement: the units it consumes, their cost, and the queue with those units
  removed from the front. The upload handler that refuses the other brokers is
  modelled too.
- `broker_pipeline.dfy` (module `BrokerPipeline`) is the multi-broker dashboard of
  `edgekit_app_v2.py`. It covers the three rename tables, the ThinkorSwim
  `Date + " " + Clock` time, and the drop of unparsed times. It also covers the sort
  by time, the running P&L and the per-symbol `Trades`/`TotalPnL` summary.
- `webull_cleaning.dfy` (module `WebullCleaning`) holds both versions of
  `clean_webull` side by side: `edgekit_app_v5.4.py` and `edgekit_app_v5.py`. Each
  strips '@' from every text cell, applies its row masks, and derives the calendar
  date, the hour, the hour label, the weekday and the notional `PnL`. Version 5.4
  also derives `Ticker`, `Trade ID` and the text `Side`. A lemma compares the rows
  the two versions keep.
- `hour_labels.dfy` (module `HourLabels`) is `format_hour_label`. It is defined in
  `edgekit_helpers.py` and repeated word for word in both later dashboards.
- `cells.dfy` (module `Cells`) holds the table model shared by the others:
  - cells that are NaN, text, numbers or timestamps;
  - column lookup by label, with the `KeyError` of a missing label;
  - boolean-mask selection and its subsequence theorem;
  - the first-failure semantics of a column conversion;
  - the '@' stripping.
- `running_sums.dfy` (module `RunningSums`) is pandas' `cumsum` and
  `groupby(...).agg(["count", "sum"])` over a column whose values may be NaN.

A table is a list of column labels and a list of rows of cells, addressed by column
position. Renaming therefore touches only the labels. A label that appears twice
after a rename makes a lookup fail (`AmbiguousColumn`), where pandas would return a
frame instead of a column. The library parsers are fields of a `Parsers` value:
`pd.to_numeric`, `pd.to_datetime` (general, and with Webull's
`"%m/%d/%Y %H:%M:%S EST"` format) and `astype(str)`. Each of them is an arbitrary
function, so every result holds whatever they do. An exception that reaches the
dashboard's `except` is a `Failure` value in a `Result`, and the dashboard shows its
message instead of the table.

## Model

| member | source | states |
|---|---|---|
| Cells.ColumnIndex | edgekit_app_v3.py:15-18 | A label present exactly once gives its position. A label that is absent fails with `MissingColumn`. A label present more than once fails with `AmbiguousColumn`. |
| Cells.MapAll | edgekit_app_v3.py:16-18 | A column conversion succeeds exactly when every row converts, and then gives each row's value in order. Otherwise it fails with the failure of the first row that does not convert. |
| Cells.SelectIsSubsequence | edgekit_app_v3.py:15 | A boolean mask keeps exactly the rows it holds for, once each, in their original relative order (strictly increasing positions). |
| Cells.SelectTwice | edgekit_app_v5.4.py:17-18 | Two filters applied one after the other keep what their conjunction keeps. |
| Cells.StripCell | edgekit_app_v5.4.py:14 | A text cell loses its '@' characters; any other cell is unchanged. |
| Cells.StripAtSpec | edgekit_app_v5.4.py:14 | The stripped text has no '@' and is shorter by exactly the number of '@' in the input. "@" strips to "" and text without '@' is unchanged. Stripping distributes over concatenation and is idempotent. Together these fix the result: every other character stays, in order. |
| Cells.StripRowsSpec | edgekit_app_v5.py:14 | Every cell of the stripped table keeps its kind. A text cell has no '@' left. Any other cell is unchanged. |
| RunningSums.Cumsum | edgekit_app_v2.py:62 | The cumulative column has one entry per row. It is NaN exactly where the value is NaN, and otherwise is the sum of the present values up to and including that row. |
| RunningSums.CumsumRecurrence | edgekit_app_v3.py:52 | With every value present, the first total is the first value and each later total is the previous total plus the row's value. |
| RunningSums.GroupTotals | edgekit_app_v2.py:69-70 | The summary has a row exactly for each key that occurs and is not NaN. |
| RunningSums.GroupTotalsSpec | edgekit_app_v2.py:69-70 | Each key's summary row holds the count of that key's present values and their sum. |
| HourLabels.Truncate | edgekit_helpers.py:8 | `int()` truncates toward zero. |
| HourLabels.DecimalRoundTrip | edgekit_helpers.py:9 | The numeral of a number is a non-empty digit string without a leading zero, and it reads back as the number. |
| HourLabels.FormatHourLabel | edgekit_helpers.py:5-9 | A missing hour gives "Unknown". The truncated hour must be in 0..23, else the call fails. 0 gives "12 AM", 12 gives "12 PM", 1..11 give "h AM" and 13..23 give "(h-12) PM". |
| HourLabels.ClockLabelCases | edgekit_app_v5.4.py:11 | The `strftime("%-I %p")` label of each hour of the day, by case. |
| HourLabels.ClockLabelRoundTrip | edgekit_helpers.py:9 | Reading a label back gives the hour of the day it was made from. |
| HourLabels.ClockLabelsDistinct | edgekit_helpers.py:9 | Distinct hours of the day get distinct labels. |
| HourLabels.ClockLabelShape | edgekit_app_v5.py:11 | A label is a numeral in 1..12 without a leading zero, a space, and "AM" or "PM". |
| HourLabels.FormatHourLabelTruncates | edgekit_helpers.py:8-9 | Worked values: 9.0 and 9.75 give "9 AM", -0.5 gives "12 AM", 23.0 gives "11 PM", and -1.0 and 24.0 fail. |
| FifoMatcher.Sell | edgekit_app_v3.py:36-47 | The sell loop as a function of the queue. It carries no clause of its own; its promises are the lemmas `SellStep`, `SellIsFifo`, `SellLeavesSuffix`, `SellConserves`, `Oversell` and `SellSplit`. |
| FifoMatcher.SellStep | edgekit_app_v3.py:38-46 | One turn of the sell loop matches `min(remaining, lot)` units of the head lot at `matched * (price - cost)`. It pops the lot exactly when all of it is matched, otherwise it shrinks it. The rest of the sell continues from there. |
| FifoMatcher.SellLeavesSuffix | edgekit_app_v3.py:38-46 | Lots leave from the front only. What a sell leaves is a tail of the queue, except that its first lot may be the old lot at that place, shrunk, at the same price. |
| FifoMatcher.Step | edgekit_app_v3.py:24-49 | After any order its symbol has a queue, and only a sell realizes a non-zero P&L. Orders with a missing symbol share one queue. |
| FifoMatcher.Run | edgekit_app_v3.py:20-50 | The orders produce exactly one realized P&L each. |
| FifoMatcher.LotBook.constructor | edgekit_app_v3.py:20-21 | Processing starts with no queues and no P&L. |
| FifoMatcher.LotBook.Record | edgekit_app_v3.py:24-49 | Processing one order in place appends its realized P&L to `trades` and leaves `positions` as one step of `Run`. For a sell, the loop's invariant ties the partial P&L and the current queue to `Sell`. |
| FifoMatcher.SellIsFifo | edgekit_app_v3.py:38-47 | A sell consumes `min(qty, inventory)` units (none for a quantity that is not positive). It realizes the sale price of those units less their cost taken head-first, and leaves the queue with exactly those units removed from the front. |
| FifoMatcher.DropConserves | edgekit_app_v3.py:38-46 | Removing units from positive lots leaves positive lots that hold that many fewer units. Removing the whole inventory or more leaves nothing, and its cost is the cost basis of the queue. |
| FifoMatcher.SellConserves | edgekit_app_v3.py:38-46 | After a sell, the queue holds `min(qty, inventory)` fewer units and every lot is still positive. |
| FifoMatcher.Oversell | edgekit_app_v3.py:38 | Selling more than the inventory empties the queue without error. It realizes the inventory's sale value less its cost basis, the same as selling exactly the inventory. |
| FifoMatcher.SellSplit | edgekit_app_v3.py:35-47 | Two sells at the same price realize together what one sell of their sum realizes, and leave the same queue. |
| FifoMatcher.WorkedExamples | edgekit_app_v3.py:38-47 | Buy 10@10, Buy 5@12, Sell 12@15 realizes 56 and leaves one lot of 3@12. Selling 20@15 against 10@10 realizes 50 and leaves nothing. |
| FifoMatcher.StepEffects | edgekit_app_v3.py:29-49 | An order adds no other symbol and changes no other symbol's queue, and a first-seen symbol starts empty. A buy appends its lot at the tail. A sell realizes and leaves what the loop over its queue gives. Any other side leaves the queue as it was. |
| FifoMatcher.SellKeepsPositive | edgekit_app_v3.py:40-46 | A sell leaves positive lots positive. |
| FifoMatcher.RunKeepsLotsPositive | edgekit_app_v3.py:32-46 | When every buy has a positive quantity, every queued lot of every symbol stays positive. |
| FifoMatcher.SymbolsAreIndependent | edgekit_app_v3.py:29-47 | The P&L of one symbol's orders and that symbol's final queue are what its orders alone would give. |
| FifoMatcher.WorkedExampleOrders | edgekit_app_v3.py:23-49 | The worked example as three Filled orders gives P&L 0, 0, 56 and leaves one lot of 3@12. |
| FifoMatcher.LowerSide | edgekit_app_v3.py:17 | A side that is not text becomes NaN. Text keeps its length and has no upper-case letter left. Each upper-case letter becomes its lower-case letter (code point plus 32), and every other character is kept. |
| FifoMatcher.SideCaseIgnored | edgekit_app_v3.py:17 | "BUY" and "Buy" reach the matcher as "buy" and "SELL" as "sell". A side that is not text becomes NaN. |
| FifoMatcher.SideMatches | edgekit_app_v3.py:17-35 | A side reaches the buy branch exactly when it is text spelling "buy" in any mix of cases, and the sell branch exactly when it spells "sell" in any mix of cases. |
| FifoMatcher.PriceOf | edgekit_app_v3.py:16 | A price is read exactly when it is a number, or text that parses once the '@' are removed. A number is read as itself and text as what the parser gives for it without '@'. A NaN price and an unreadable price fail with different messages. |
| FifoMatcher.QuantityOf | edgekit_app_v3.py:18 | A quantity is read exactly when it is a number or text that parses (no '@' removed). A number is read as itself and text as what the parser gives. Otherwise it fails. |
| FifoMatcher.Prepare | edgekit_app_v3.py:15-27 | A prepared file's rows are exactly the Filled rows, with one order per row. Each order has its row's `Symbol`, its lower-cased `Side`, the quantity its `Filled` cell reads as, and the price its `Price` cell reads as. A prepared file's `Side` column is one `.str` accepts: as read it holds some text (or has no rows), and on the Filled rows it holds some text or no value at all. |
| FifoMatcher.SideRefusal | edgekit_app_v3.py:16-17 | Once the prices are read, a `Side` column that `.str` refuses fails the file. |
| FifoMatcher.MixedSideKept | edgekit_app_v3.py:15-18 | A `Side` column with text on some Filled row is accepted even when other Filled rows hold numbers, given readable prices and quantities and the columns the loop reads. |
| FifoMatcher.NonTextSideRealizesNothing | edgekit_app_v3.py:17-49 | An order whose `Side` cell is not text reaches the loop with a NaN side and realizes 0, whatever the book. |
| FifoMatcher.NumericSideRefused | edgekit_app_v3.py:17 | A `Side` column whose Filled rows all hold numbers is refused, even when rows that are not Filled hold text. |
| FifoMatcher.Assemble | edgekit_app_v3.py:51-53 | Each output row keeps its Filled row and its order, gets its own P&L, the running total of the P&L column, and its `Filled Time` as parsed. |
| FifoMatcher.ProcessWebull | edgekit_app_v3.py:14-54 | The loop over the Filled orders through a fresh `LotBook` gives what `Run` gives, then the columns of lines 51-53. |
| FifoMatcher.Upload | edgekit_app_v3.py:60-64 | A Webull file is processed. Any other broker is refused with the "not yet implemented" failure. |
| FifoMatcher.ProcessedRows | edgekit_app_v3.py:20-23 | There is one output row per Filled row, in file order, and a row is in the output exactly when its Status is "Filled". Each row's P&L is what FIFO matching of the Filled orders gives it. |
| FifoMatcher.CumulativeColumn | edgekit_app_v3.py:52 | `CumulativePnL[0] = PnL[0]` and `CumulativePnL[i] = CumulativePnL[i-1] + PnL[i]`. |
| FifoMatcher.AssembledCumulative | edgekit_app_v3.py:52 | The same recurrence for a table assembled from any P&L values. |
| FifoMatcher.BadPriceAborts | edgekit_app_v3.py:16 | A Filled row whose price does not parse once the '@' are removed makes the whole file fail; it is not dropped. |
| BrokerPipeline.Rename | edgekit_app_v2.py:23-52 | The renamed labels correspond one to one with the original labels. A label in the broker's dictionary takes its image and any other label is kept. |
| BrokerPipeline.RenamedIn | edgekit_app_v2.py:23-52 | A label is present after the rename exactly when some original label is renamed to it. |
| BrokerPipeline.TimeColumnSources | edgekit_app_v2.py:22-57 | Webull gets a `Time` from `Filled Time` or `Time`. Robinhood gets it from `Date` or `Time`. ThinkorSwim never renames anything to `Time`, and gets one exactly when `Date` and a clock column exist. |
| BrokerPipeline.WebullDuplicateTime | edgekit_app_v2.py:29-30 | A Webull export with both `Filled Time` and `Time` ends with two `Time` columns, and looking it up fails. |
| BrokerPipeline.WithTosTime | edgekit_app_v2.py:53-54 | The new `Time` column is `Date + " " + Clock` parsed, and NaN when either part is NaN or the text does not parse. Every other cell is unchanged. A `Date` column that is not a text column fails. After that, the join fails exactly when some row pairs a date with a `Clock` cell that is a number or a timestamp. |
| BrokerPipeline.EmptyClockGivesNoTimes | edgekit_app_v2.py:54 | A `Clock` column with no values does not fail: every joined time is NaN. |
| BrokerPipeline.ClockClashExamples | edgekit_app_v2.py:54 | A date with a numeric clock fails. The same date with a NaN clock gives a NaN time. |
| BrokerPipeline.Mapped | edgekit_app_v2.py:22-55 | Webull and Robinhood only rename the labels. A mapped frame keeps every row and every original cell, with the renamed labels first. Only ThinkorSwim's join can fail. |
| BrokerPipeline.MappedTimeColumn | edgekit_app_v2.py:53-57 | The mapped frame has a `Time` column exactly when the upload has one of the columns the broker's time comes from. |
| BrokerPipeline.ParsedRows | edgekit_app_v2.py:58-59 | No more rows come out than go in, and each carries the time its `Time` cell parses to. |
| BrokerPipeline.ParsedRowsAreSelected | edgekit_app_v2.py:58-59 | The rows kept after the time conversion are the rows whose time parses, each paired with its parsed time. |
| BrokerPipeline.SortByTime | edgekit_app_v2.py:61 | Insertion sort by time. It carries no clause of its own; `SortByTimeSpec` states what it promises. |
| BrokerPipeline.SortByTimeSpec | edgekit_app_v2.py:61 | Sorting orders the rows by time and is a permutation. |
| BrokerPipeline.PnLOf | edgekit_app_v2.py:62 | A P&L cell is a number or NaN. Text fails. |
| BrokerPipeline.Chart | edgekit_app_v2.py:57-73 | There is no chart exactly when the mapped frame has no `Time` column. A chart needs `Time`, `PnL` and `Symbol` columns and a P&L for every row. |
| BrokerPipeline.Analyse | edgekit_app_v2.py:22-75 | A mapping failure is the dashboard's failure. A successful analysis is the no-time warning exactly when none of the broker's time sources is present. |
| BrokerPipeline.WarningIffNoTime | edgekit_app_v2.py:72-73 | The warning is shown exactly when the mapping succeeds but none of the broker's time sources is present. |
| BrokerPipeline.ChartedRowsOrdered | edgekit_app_v2.py:58-61 | The chart rows are the rows whose time parses, each once, in non-decreasing time order. Each row carries the time its `Time` cell parses to. |
| BrokerPipeline.ReportInTimeOrder | edgekit_app_v2.py:58-62 | The same facts for the report over the sorted parsed rows of any frame. |
| BrokerPipeline.ParsedRowsKept | edgekit_app_v2.py:58-59 | Every row whose time parses survives with its time, and every surviving row comes from the frame and has a parsed time. |
| BrokerPipeline.CumulativeInTimeOrder | edgekit_app_v2.py:62 | The running P&L follows the sorted order. It is NaN where the row's P&L is NaN, and otherwise the sum of the present P&L up to and including that row. |
| BrokerPipeline.SummaryPerSymbol | edgekit_app_v2.py:69-70 | There is one summary row per non-NaN symbol of the charted rows. `Trades` counts its rows with a P&L and `TotalPnL` sums them. |
| BrokerPipeline.MissingPnLFails | edgekit_app_v2.py:74-75 | With a `Time` column but no `PnL` column, the dashboard shows an error instead of a chart. |
| WebullCleaning.WeekdayCycle | edgekit_app_v5.4.py:22 | 1970-01-01 is a Thursday, and each day is followed by the next weekday, Sunday by Monday. |
| WebullCleaning.Features | edgekit_app_v5.4.py:19-22 | The hour is in 0..23, and the date and hour are the day and hour slot that contain the fill. The hour label is `format_hour_label` of the hour and the day is the weekday's name. |
| WebullCleaning.FeaturesUnique | edgekit_app_v5.4.py:19-20 | The date and hour are the only ones whose slot contains the fill. |
| WebullCleaning.FeaturesExamples | edgekit_app_v5.py:19-22 | The epoch is Thursday 00:00 ("12 AM"). Second 1700000000 is day 19675, a Tuesday, at 22:00 ("10 PM"). |
| WebullCleaning.FilledTime | edgekit_app_v5.4.py:16 | NaN and numbers become NaT, and a timestamp is kept. Only text or a timestamp can give a time. |
| WebullCleaning.Notional | edgekit_app_v5.4.py:23 | `Avg Price * Filled` is a number exactly when both are numbers, and then their product. It is NaN when `Filled` is NaN. With a float price it fails when `Filled` is text or a timestamp. |
| WebullCleaning.MakeTrade | edgekit_app_v5.4.py:19-22 | A kept row's coerced price and time are its trade's, and the calendar fields come from that time. |
| WebullCleaning.Trades54 | edgekit_app_v5.4.py:19-26 | One trade per kept row, in order. `Ticker` is the symbol and `Trade ID` is `Ref #` and the time as text joined by "-". `Side` is the side as text. |
| WebullCleaning.Clean54 | edgekit_app_v5.4.py:13-27 | On success, every column read exists and the product succeeded on every kept row. The output is the trades of the kept rows. |
| WebullCleaning.Keep54 | edgekit_app_v5.4.py:17-18 | A row is kept exactly when its `Status` is the text "Filled", its `Avg Price` and `Filled Time` coerce, and its `Symbol` and `Side` are present. |
| WebullCleaning.Clean54RowsAre | edgekit_app_v5.4.py:17-18 | The rows behind the output are the stripped rows that both filters keep. |
| WebullCleaning.Clean54Rows | edgekit_app_v5.4.py:14-18 | The output rows are exactly those stripped rows that are Filled, have a coercible `Avg Price` and `Filled Time`, and have a present `Symbol` and `Side`. Each appears once, in file order. |
| WebullCleaning.Clean54Values | edgekit_app_v5.4.py:23-26 | For each output row: `PnL = Avg Price * Filled`, `Ticker = Symbol` (present), `Trade ID = str(Ref #) + "-" + str(Filled Time)`, and `Side` is the side as text. |
| WebullCleaning.Clean54TextFilledAborts | edgekit_app_v5.4.py:23 | With a float `Avg Price` column, a kept row whose `Filled` is text makes the whole file fail. |
| WebullCleaning.Mask5 | edgekit_app_v5.py:17-18 | A kept row has a status that is not NaN, and its `Avg Price` and `Filled Time` coerce. A row whose `Status` is the text "Filled" is kept exactly when both coerce. |
| WebullCleaning.Trades5 | edgekit_app_v5.py:19-23 | One trade per masked row, in order, with its status as text. |
| WebullCleaning.Clean5 | edgekit_app_v5.py:13-25 | On success, every column read exists and the product succeeded on every masked row. The output is the masked trades that have a `Symbol`. |
| WebullCleaning.Filter5Rows | edgekit_app_v5.py:24 | The symbol filter keeps the masked rows that have a `Symbol`, as they were. |
| WebullCleaning.Clean5RowsAre | edgekit_app_v5.py:18-24 | The rows behind the output are the stripped rows that both masks keep. |
| WebullCleaning.Clean5Rows | edgekit_app_v5.py:14-24 | The output rows are exactly those stripped rows whose `Status` as text is "Filled", whose `Avg Price` and `Filled Time` coerce, and whose `Symbol` is present, whatever their `Side`. Each appears once, in file order. |
| WebullCleaning.Clean5Values | edgekit_app_v5.py:17-24 | For each output row: its status is "Filled", its `Symbol` is present, and `PnL = Avg Price * Filled`. |
| WebullCleaning.Clean5TextFilledAborts | edgekit_app_v5.py:23-24 | With a float `Avg Price` column, a masked row whose `Filled` is text makes the whole file fail, even when line 24 would drop the row. |
| WebullCleaning.MasksCompared | edgekit_app_v5.py:17-18 | Version 5.4's masks keep what version 5's keep and `Stricter54` then keeps. |
| WebullCleaning.VersionsCompared | edgekit_app_v5.py:17-24 | When both versions clean the same file, version 5.4's rows are exactly version 5's rows whose `Status` is the text "Filled" and whose `Side` is present. |
| WebullCleaning.StatusAsText | edgekit_app_v5.py:17 | A NaN status is never "Filled" as text. For text or NaN, "Filled" as text means the text "Filled". |
| WebullCleaning.SideAndStatusDiffer | edgekit_app_v5.py:18 | A row version 5 keeps whose `Side` is NaN is dropped by version 5.4. A row whose `Status` is NaN is kept by neither. |

## Left out

- The Streamlit and Plotly code (page setup, uploaders, selectboxes, charts, tables, download buttons) is presentation only, and so is the partial display that comes before a failure. The model gives the data the dashboard would show, or the failure it would report.
- `pd.read_csv` and `to_csv`: the input is an already-parsed table.
- The internals of `pd.to_numeric`, `pd.to_datetime` and `astype(str)` are abstract functions; the proofs hold for any parser.
- `edgekit_app_v4.py` is not part of this model. It reads a fixed file and embeds prebuilt charts.
- The chart aggregations of the later dashboards (per-ticker sums, value counts) are display glue.
- Drawdown, risk-reward, win/loss and trade duration are not implemented in the source, so they are not invented here.
- Floating point: prices, quantities and P&L are real numbers, so there is no rounding and no float equality subtlety in `matched_qty == bought_qty`.
- `%p` and `%-I` use the C locale ("AM"/"PM").
- FifoMatcher.PriceOf: a NaN price is modelled as a failure (`MissingNumber`) rather than a NaN that flows on into the P&L.
- FifoMatcher.QuantityOf: a NaN quantity likewise fails instead of giving a NaN P&L.
- FifoMatcher.LowerSide: lower-casing maps ASCII letters only.
- FifoMatcher.Step: all orders whose `Symbol` is NaN share one queue, keyed by the missing cell. In Python a NaN key is found again only if it is the same object. When the `Symbol` column holds no text it is a float column, and `iterrows` boxes each NaN afresh, so each such order starts from an empty queue. A sell with no symbol then realizes 0 where the model matches it against earlier buys with no symbol. The model's cells are values without object identity, so this is not captured.
- WebullCleaning.Notional: prices are reals, i.e. a float `Avg Price` column. When every price is a whole number and none is blank, the column stays integer-typed. A text `Filled` cell is then repeated as a string (`12 * "10"`) instead of raising TypeError. So `Clean54TextFilledAborts` and `Clean5TextFilledAborts` describe files with a float price column only.
- BrokerPipeline.PnLOf: a text P&L cell is a failure, where pandas' `cumsum` over text would concatenate strings or raise, depending on the mix.
- FifoMatcher.Sell and BrokerPipeline.SortByTime carry no clause of their own: every clause on them would be assumed at each use and make the proofs that unfold them too costly. Their contracts are stated as lemmas instead.
- BrokerPipeline.SortByTimeSpec: the sort is stable, whereas pandas' default quicksort leaves the order of equal times unspecified. Only order and permutation are stated, and both hold for any tie order.
- RunningSums.GroupTotalsSpec: the summary is a map from symbol to totals, so the row order of `groupby` (sorted keys) is not modelled.
- Output tables are sequences of records (`MatchedRow`, `ReportRow`, `Trade54`, `Trade5`) rather than frames with new columns appended. The dashboards never read those columns back.
- WebullCleaning.Features: the date is a day count since 1970-01-01, not a year/month/day triple, and the weekday is computed from it. Timestamps are naive seconds; the "EST" in the format is literal text.
- WebullCleaning.Clean54: a column label that occurs twice fails at its first lookup (`AmbiguousColumn`). `dropna` on a missing `Symbol` or `Side` column is reported as the first of them missing.
- WebullCleaning.FilledTime: a `Filled Time` cell that is a number is treated as unparseable (NaT).
