# Orders ETL transform, modelled in Dafny

This project models the transform stage of the Orders ETL pipeline:
`transform_orders` in `src/etl/transform.py` with its helpers `_coerce_types`
and `_drop_bad_rows` and the constant `REQUIRED_COLUMNS`. The stage turns a raw
table of order rows into two tables:

- `fact_orders`: one row per order, with `total_amount = quantity * price`,
  ordered by date;
- `dim_customers`: one rollup row per customer, ordered by `customer_id`.

The code is pure, so the model is too: functions over sequences of rows, with
lemmas. The modules follow the stages of the transform.

| file | module | what it holds |
|---|---|---|
| `tables.dfy` | `Tables` | raw cells and tables, coerced orders, lines, the two output row types, the error kinds |
| `sequences.dfy` | `Sequences` | an order-preserving `Filter` and the subsequence relation, with their lemmas |
| `coercion.dfy` | `Coercion` | the schema check and `_coerce_types` |
| `filters.dfy` | `Filters` | the `min_date` cutoff, `_drop_bad_rows` and the derived total |
| `facts.dfy` | `Facts` | `fact_orders`: projection, first-occurrence dedup by `order_id`, sort by date |
| `customers.dfy` | `Customers` | `dim_customers`: the grouping by `customer_id` and its aggregates |
| `transform.dfy` | `Transform` | `transform_orders` and its end-to-end properties |
| `scenarios.dfy` | `Scenarios` | the two unit tests of `tests/test_transform.py`, plus two tables showing duplicated `order_id`s |

How the model represents the data:

- **Raw table.** A list of column names plus rows that map names to cells. A
  cell is `Null`, `Int`, `Real` or `Text`. `Null` stands for every missing value
  (None, NaN, NaT).
- **Failures.** A failed call is a `Result` failure carrying one of three
  errors:
  - `SchemaError`, with the list of missing columns;
  - `CoercionError`, with the column that could not be converted;
  - `DateParseError`, with the `min_date` text.
- **Dates.** A date is a day number.
- **Numbers.** Quantities and prices are reals.
- **Text parsing.** Parsing text as an integer, a float or a date is done by
  the runtime, so it is a parameter of the model (`Parsers`).

Points where the code's behaviour may surprise a reader:

- **Null ids.** A null `order_id` or `customer_id` makes `astype(int)` raise
  (`src/etl/transform.py:12-13`). A row with a null id is therefore a coercion
  error for the whole call. The `dropna` of `_drop_bad_rows` on those two
  columns never gets to drop it (`Coercion.NullOrderIdAborts`).
- **Empty `min_date`.** The cutoff is applied only `if min_date:`, so an empty
  string means no cutoff, the same as an absent one.
- **City and country.** They come from the first *non-null* value of the
  customer's rows, because the `first` aggregation skips nulls.
- **Which duplicate is kept.** `fact_orders` keeps the first occurrence of each
  `order_id` in input order, because `drop_duplicates` runs before
  `sort_values`.
- **Sort order of ties.** `sort_values` uses pandas' default sort, which is not
  stable. The model only promises that the fact table is ordered by date and is
  a permutation of the deduplicated rows.
- **Customers without a fact row.** `fact_orders` is deduplicated and
  `dim_customers` is not, so a customer can be in `dim_customers` without being
  in `fact_orders`. That happens when each of its `order_id`s was first used by
  another customer (`Scenarios.SharedOrderIdLeavesCustomerWithoutFact`). When
  each `order_id` belongs to one customer, every customer does have a fact row
  (`Transform.DimCustomersHaveFacts`).

## Model

| member | source | states |
|---|---|---|
| Coercion.MissingColumnsSpec | src/etl/transform.py:34-36 | the missing list holds exactly the required columns absent from the schema, in `REQUIRED_COLUMNS` order, and is empty iff every required column is present |
| Coercion.TruncateToInt | src/etl/transform.py:12-13 | converting a float to an integer drops the fraction, rounding toward zero on both signs |
| Coercion.AsIntWidth | src/etl/transform.py:12-13 | an integer cell, or text read as an integer, converts iff it fits in 64 bits, and then to itself; whatever converts from a non-float cell is in the 64-bit range |
| Coercion.CoerceRows | src/etl/transform.py:10-17 | coercion keeps the number and order of rows, and row i becomes the coerced raw row i |
| Coercion.CoerceTable | src/etl/transform.py:10-17 | coercion succeeds iff every row converts in every coerced column; on success it yields the coerced rows; on failure it names a column whose cells do not all convert, while every column converted before it does |
| Coercion.NullOrderIdAborts | src/etl/transform.py:12 | one null `order_id` anywhere makes the whole coercion fail on `order_id` |
| Coercion.NullMeasuresConvert | src/etl/transform.py:14-16 | a null quantity, price or date converts, to a missing value; a null id does not convert |
| Filters.CutoffOf | src/etl/transform.py:39-40 | an absent or empty `min_date` gives no cutoff; the call fails iff a non-empty `min_date` does not parse, and the error carries the text; otherwise the cutoff is the parsed date |
| Filters.CutoffSpec | src/etl/transform.py:39-41 | without a cutoff nothing changes; every kept row is dated on or after the cutoff; every row dated on or after it is kept as often as it occurs; rows keep their order |
| Filters.DropBadRows | src/etl/transform.py:19-23 | every surviving row has a date, an item, a quantity and a price, with quantity > 0 and price >= 0 |
| Filters.DropBadRowsSpec | src/etl/transform.py:19-23 | a row survives, as often as it occurs, iff it passes every check; rows keep their order; a table with no invalid row is unchanged |
| Filters.CutoffCommutesWithValidity | src/etl/transform.py:39-42 | applying the cutoff before or after the validity filter gives the same rows |
| Filters.AddTotals | src/etl/transform.py:43 | adding the total keeps the number and order of rows and every other field |
| Filters.AddTotalsPriced | src/etl/transform.py:43 | every line has `total_amount = quantity * price`, quantity > 0, price >= 0 and an item |
| Facts.Project | src/etl/transform.py:46-47 | selecting the fact columns keeps the rows and their order |
| Facts.DedupSpec | src/etl/transform.py:48 | after dedup the `order_id`s are unique, every input id is still present, each kept row is the first row with its id, and rows keep their order |
| Facts.DedupKeepsIds | src/etl/transform.py:48 | after dedup the ids are unique and the same as the input's, and rows keep their order |
| Facts.DedupKeepsFirstOccurrences | src/etl/transform.py:48 | every kept row is the first input row with its `order_id` |
| Facts.InsertByDate | src/etl/transform.py:48 | inserting a row adds exactly that row |
| Facts.InsertByDateSorted | src/etl/transform.py:48 | inserting into a table ordered by date keeps it ordered |
| Facts.SortByDate | src/etl/transform.py:48 | the sorted table is a permutation of its input and is non-decreasing in `order_date` |
| Facts.BuildFactSpec | src/etl/transform.py:46-48 | `fact_orders` has unique ids, exactly the ids of the lines, each row is the first line with its id, it is a permutation of the deduplicated rows, and it is ordered by date |
| Facts.PermutationKeepsUniqueIds | src/etl/transform.py:48 | reordering a table whose ids are unique keeps them unique |
| Facts.ProjectOrderIds | src/etl/transform.py:46-47 | the projected rows carry exactly the ids of the lines |
| Facts.FactRowsAreFirstLines | src/etl/transform.py:46-48 | every fact row is the fact part of the first line with its `order_id` |
| Customers.FirstNonNull | src/etl/transform.py:52-53 | the `first` aggregate is the first non-null value in row order, and is null iff every value is null |
| Customers.StartSpec | src/etl/transform.py:51-57 | a customer's first line starts a rollup that describes that line |
| Customers.AbsorbSpec | src/etl/transform.py:51-57 | folding one more line into a rollup keeps it describing the customer's lines |
| Customers.GroupSpec | src/etl/transform.py:51-58 | a customer has a group iff it has lines, and each group's rollup describes exactly that customer's lines |
| Customers.GroupKeys | src/etl/transform.py:51-58 | the grouped customers are exactly the customers of the lines |
| Customers.InsertIdIncreasing | src/etl/transform.py:62 | inserting an id into a strictly increasing list keeps it strictly increasing |
| Customers.CustomerIdsInOrder | src/etl/transform.py:58-62 | the customer ids come out strictly increasing, and are exactly the customers of the lines |
| Customers.DimRows | src/etl/transform.py:60-62 | row i of the output is the finished rollup of the i-th customer id |
| Customers.BuildDimSpec | src/etl/transform.py:51-62 | `dim_customers` has one row per customer of the lines, in strictly increasing `customer_id` order, and each row describes that customer's lines: first non-null city and country, the earliest and latest date, the count of distinct `order_id`s, and the sum of `total_amount` over every line, duplicates included |
| Transform.TransformOrders | src/etl/transform.py:25-64 | the call fails with a schema error iff a required column is missing, and that error lists every missing column; it succeeds iff the schema is complete, every cell coerces and `min_date` is absent, empty or a date |
| Transform.TransformOutcome | src/etl/transform.py:37-64 | with a complete schema, a coercion error comes before a `min_date` error; a successful call returns the two tables of the cleaned coerced rows |
| Transform.SchemaErrorComesFirst | src/etl/transform.py:34-36 | a missing column fails the call the same way whatever the rows, the `min_date` and the parsing |
| Transform.CleanLinesSpec | src/etl/transform.py:39-43 | every line is dated on or after the cutoff and is priced, and there is one line per row that passed both filters |
| Transform.CutoffAsPrefilter | src/etl/transform.py:39-42 | running with a cutoff equals applying the cutoff after the validity filter; the first clause, removing the earlier rows first and running without a cutoff, holds by the definition of the cleaned lines |
| Transform.TransformSpec | src/etl/transform.py:25-64 | a successful call meets every property of `fact_orders` (including the cutoff bound and pricing) and of `dim_customers` listed above, over the same cleaned lines |
| Transform.FactOfCleanLines | src/etl/transform.py:39-48 | the `fact_orders` half of `TransformSpec`, for any coerced rows and cutoff |
| Transform.FactRowsPriced | src/etl/transform.py:43-48 | every fact row has `total_amount = quantity * price`, quantity > 0 and price >= 0 |
| Transform.FactRowsAfter | src/etl/transform.py:39-48 | every fact row is dated on or after the cutoff |
| Transform.EmptyLinesGiveEmptyTables | src/etl/transform.py:42-62 | when every row is filtered out, the two tables built from the lines are both empty |
| Transform.FilteredOutCallSucceeds | src/etl/transform.py:34-64 | a call with a complete schema, coercible cells and a valid `min_date` whose rows are all filtered out succeeds, with two empty tables |
| Transform.DimCustomersHaveFacts | src/etl/transform.py:46-62 | when each `order_id` belongs to one customer, every customer of `dim_customers` has a row in `fact_orders` |
| Scenarios.BasicScenario | tests/test_transform.py:4-21 | the basic input gives 2 fact rows, order 1 with total 3.0, and one customer row with order count 2 and lifetime value 3.0 + 6.0 |
| Scenarios.CutoffScenario | tests/test_transform.py:23-37 | with `min_date` 2025-09-01 the fact ids are exactly {1, 2} and the one customer row counts 2 orders |
| Scenarios.SharedOrderIdLeavesCustomerWithoutFact | src/etl/transform.py:46-58 | if two customers' lines share one `order_id`, the second customer has a `dim_customers` row but no `fact_orders` row |
| Scenarios.RepeatedOrderCountedTwiceInLifetimeValue | src/etl/transform.py:46-57 | a repeated line gives one fact row but is summed twice in `lifetime_value`, while `order_count` stays 1 |

## Left out

- `src/etl/extract.py`, `src/etl/load.py`, `src/etl/cli.py` and `src/etl/logging_config.py` are not part of this model. They are CSV or HTTP reading, SQLite writing, command wiring and logger setup, which are I/O with no logic to prove.
- Text parsing is not modelled. `int()` and `float()` of a text cell, and `pd.to_datetime` of a cell or of `min_date`, are the `Parsers` parameters, so formats, time zones and the dropping of time of day are left to the runtime. A parser's answer is used as given; the model only fixes that a null cell stays missing under `astype(float)` and `to_datetime` and does not convert under `astype(int)`.
- Floating point is not modelled. Quantities, prices, totals and sums are exact reals, so IEEE-754 rounding of `quantity * price` and of the `lifetime_value` sum is not captured. A NaN that the data holds as a value is modelled as `Null`.
- Facts.SortByDate: promises only non-decreasing dates and a permutation, not the order of rows with equal dates, because pandas' default sort is not stable. The model sorts by insertion, but no lemma relies on that order.
- Coercion.AsInt: a float outside the 64-bit range is truncated to an unbounded integer. `astype(int)` instead casts it to an unspecified 64-bit value without an error, and the model does not capture that value. Integer cells and integer text outside the range are modelled; they fail conversion, as the `OverflowError` does.
- Parsers: text that parses to a *missing* value is not modelled. Examples are `""`, `"NaT"` or `"nan"` under `pd.to_datetime`, and `"nan"` under `float()`. In the source such a row survives coercion and is then dropped by `_drop_bad_rows`. In the model a text cell either parses to a value or fails the whole conversion, so such a row is kept or aborts the call. Only a `Null` cell stands for a missing value. The same holds for `min_date`: in the source a non-empty `min_date` that parses to NaT, such as `"NaT"` or `"nan"`, passes the truthiness test, every comparison with it is false, and the call returns two empty tables; in the model it either fails with `DateParseError` or gives a real cutoff.
- pandas index labels, `reset_index` and the column order of the output frames are not modelled. The output rows carry exactly the output columns.
- Columns other than the required ones are not carried into `Order`. They reach neither output table.
- The text of the `ValueError` is not modelled, only the list of missing columns it names. Exceptions from `astype` and `to_datetime` become `CoercionError` and `DateParseError` results.
- Coercion.CoerceTable: names the first coerced column that holds an unconvertible cell. It does not say which cell pandas would report.
