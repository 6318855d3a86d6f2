# Price comparison engine, modelled in Dafny

This project models the price comparison and aggregation engine of
MarketPulse Monitor. The engine tracks how a seller's prices compare with a
competitor's for the same products. It has two parts:

- the **classifier**, `compare_prices`, gives every row of a price table a
  status (`alert` when the competitor is cheaper, `good` when we are,
  `neutral` when the prices are equal) and a message. The message states
  the price gap and that gap as a percentage. For an alert the percentage is
  taken of our price; for a good row it is taken of the competitor's price;
- the **aggregator**, `get_price_change_stats`, summarises a classified
  table. It counts the rows of each status and of the whole table. It
  averages `our_price - competitor_price` over the alert rows and
  `competitor_price - our_price` over the good rows. An average is 0 when
  its subset is empty, and every field is 0 for an empty table.

Files:

- `records.dfy` (module `PriceRecords`): the row, the status and message
  columns, and the predicate `Classified`. That predicate says what a correct
  classification of a row is, in terms of the price gap and the higher price.
- `classifier.dfy` (module `Classifier`): `compare_prices`.
- `selection.dfy` (module `Selection`): row selection by a condition, as a
  boolean mask `df[mask]` does. It is used on input rows and on classified
  rows.
- `aggregator.dfy` (module `Aggregator`): `get_price_change_stats`.
- `dashboard.dfy` (module `Dashboard`): the engine as its callers use it.
  The home page classifies the stored table and summarises it
  (app.py:99-102). The alert page classifies it and keeps the alert rows
  (app.py:425-426). The lemmas relate the status selections and the
  summary back to the input prices, and check a few worked examples.

Modelling choices:

- Prices are exact `real`s. The stored columns are floats.
- A row holds the six columns the engine reads or passes on. The stored
  table also has an `id` key column (db.py:26). The engine copies that
  column, like any other extra column, without reading it, so `id` is left
  out of the model.
- The table is a `seq` of immutable rows. Classification returns a new
  sequence; the source writes into a copied data frame instead.
- The message is a structured value: `PriceDropAlert(diff, percent)`,
  `WeAreCheaper(diff, percent)` or `PricesIdentical`. The text rendering is
  left out.
- The classifier has no precondition, because the source has none. Stored
  prices are never negative: the upload and save paths reject negative
  prices (app.py:245, db.py:75). That fact is the precondition of
  `Classifier.PercentageBounds`. With a negative price a divisor can be 0.
  The source then either raises or produces infinity, depending on the type
  of the scalar. The model returns `Percentage.Undefined` in that case.
- The aggregator selects rows by comparing the status column with the
  strings 'alert', 'good' and 'neutral'. Its input may come from any caller,
  so any other label is kept as `Status.Unrecognised`. Such a row counts
  towards the total but towards none of the three status counts.

## Model

| member | source | states |
|---|---|---|
| Classifier.PercentOf | price_compare.py:28-29 | The percentage is defined exactly when its divisor is non-zero. When defined, multiplying it by the divisor gives 100 times the difference. |
| Classifier.ClassifyRecord | price_compare.py:21-41 | The row keeps all its input columns. The status is alert iff competitor < ours, good iff ours < competitor, and neutral iff the prices are equal. The message carries the absolute gap and that gap as a percentage of the higher price (`Classified`). |
| Classifier.ComparePrices | price_compare.py:4-43 | The output has the same length and order as the input. Row i keeps every column of input row i and is correctly classified. Dropping status and message gives back the input exactly, and an empty table gives an empty table. |
| Classifier.ClassifiedIsFunctional | price_compare.py:26-41 | Two correct classifications of the same row are equal, so status and message depend on the prices alone. |
| Classifier.ClassificationIsUnique | price_compare.py:21-41 | Any correctly classified row is exactly what the classifier produces for its input columns. |
| Classifier.ReclassifyIsIdentity | price_compare.py:4-43 | Classifying the input columns of an already classified table again gives back that same table (idempotence). |
| Classifier.PercentageBounds | price_compare.py:26-37 | With non-negative prices, an alert or good row has a strictly positive gap. Its divisor is non-zero, so the percentage is defined, and the percentage lies in (0, 100]. |
| Selection.Filter | price_compare.py:70-71 | The selection contains exactly the elements of the input that satisfy the condition, and it is no longer than the input. |
| Selection.FilterMultiplicity | price_compare.py:60-71 | Each element satisfying the condition occurs in the selection exactly as often as in the input; no other element occurs. So the selection's length counts repeated rows. |
| Aggregator.RowsWith | price_compare.py:70-71 | The selection by status contains exactly the rows of the table that have that status, and it is no longer than the table. |
| Aggregator.RowsWithMultiplicity | price_compare.py:60-71 | Each row with the status occurs in the selection as often as in the table, and rows with other statuses do not occur. |
| Aggregator.Average | price_compare.py:73-79 | The average of no values is 0. Otherwise the average times the number of values equals their total. |
| Aggregator.SelectionMeasures | price_compare.py:59-79 | Selecting the rows of one status and then measuring the selection gives the same count and total as a single pass over the table. |
| Aggregator.PriceChangeStats | price_compare.py:45-88 | An empty table gives all six fields zero. The total is the row count, and the three status counts never exceed it. An average is 0 when its status count is 0. |
| Aggregator.StatsCountStatuses | price_compare.py:60-66 | competitors_cheaper, we_are_cheaper and identical_prices are the numbers of rows with status alert, good and neutral, counted in one pass. |
| Aggregator.StatsAverageAdvantages | price_compare.py:73-79 | avg_competitor_advantage is the total of our_price - competitor_price over the alert rows divided by their number. avg_our_advantage is the total of competitor_price - our_price over the good rows divided by their number. Each is 0 when there are no such rows. |
| Aggregator.CountsAddUp | price_compare.py:60-66 | The alert, good and neutral counts add up to at most the row count. They equal it exactly when no row has an unrecognised status. |
| Aggregator.CountConservation | price_compare.py:60-85 | competitors_cheaper + we_are_cheaper + identical_prices == total_products holds iff every status is alert, good or neutral. |
| Aggregator.AdvantagesOfClassified | price_compare.py:73-79 | On correctly classified rows both averages are at least 0. Each is strictly positive whenever its status has at least one row. |
| Dashboard.SelectionOfCompared | price_compare.py:59-71 | The classified rows of one status are, column for column and in order, the input rows on which the prices compare the way that status names. |
| Dashboard.SelectionsOfCompared | price_compare.py:59-71 | The alert rows are the input rows where the competitor is cheaper. The good rows are those where we are cheaper, and the neutral rows those with equal prices. |
| Dashboard.CountsOfCompared | price_compare.py:59-85 | After classification, the alert, good and neutral counts are the numbers of input rows where the competitor is cheaper, where we are cheaper and where the prices are equal. They add up to the input length. |
| Dashboard.MeansOfCompared | price_compare.py:73-79 | After classification, avg_competitor_advantage is the mean of our_price - competitor_price over the input rows where the competitor is cheaper. avg_our_advantage is the mean of competitor_price - our_price over the input rows where we are cheaper. |
| Dashboard.AdvantagesOfCompared | price_compare.py:73-87 | After classification, both averages are at least 0, and each is strictly positive when its subset is non-empty. |
| Dashboard.SingleRowExamples | price_compare.py:26-41 | Prices 10 vs 8 give an alert with gap 2 and 20%. Prices 8 vs 10 give good with gap 2 and 20%. Prices 5 vs 5 give neutral with the identical-prices message. |
| Dashboard.SummaryExamples | price_compare.py:45-88 | Two alerts (10 vs 8, 20 vs 18) and one good row (5 vs 6) give total 3, counts 2/1/0 and averages 2 and 1. An empty table classifies to an empty table and summarises to all zeros. |

## Left out

- Aggregator.PriceChangeStats: the averages are exact means. The source rounds them to 2 decimal places for display and computes them with floating-point `mean`; neither is modelled.
- Aggregator.Average: a floating-point mean is exact here; the source's float rounding is not modelled.
- Classifier.ComparePrices: rows are identified by position. The source writes each result through the row's index label (`.at[idx, ...]`). With a repeated label, that write would reach every row carrying it. Every caller passes a freshly read table whose index is 0, 1, 2, … (db.py:117), so labels are unique and label equals position.
- Classifier.ClassifyRecord: the message text is not rendered. The source formats the gap to 2 decimals and the percentage to 1 decimal, and the model keeps both as exact values.
- Classifier.PercentOf: a zero divisor gives `Undefined`. The source would raise a division error or produce infinity, depending on the scalar type. This case needs a negative price, which ingestion rejects.
- Floating-point behaviour is not modelled. This covers IEEE rounding of the subtraction and division, and NaN prices, which the source's final `else` would classify as neutral.
- On an empty table, `compare_prices` returns its input without adding the status and message columns. Column shape is not modelled; an empty sequence is the same either way.
- The Streamlit pages, charts, session state and file upload (app.py) are left out as user interface. Only the rule that prices are non-negative (app.py:237-247) is kept, as the precondition of `Classifier.PercentageBounds`.
- The SQLite storage layer (db.py) is left out as I/O. Its SQL filters re-express the classification.
- The alert e-mail stub (email_alert.py) is left out: it writes a timestamped log file and always reports failure.
- Packaging, the launcher and the Python version check (setup.py, app_launcher.py, compat.py) are left out.
