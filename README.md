# Order ETL pipelines for WooCommerce, Amazon and Shopify

This project is a Dafny model of the per-platform order pipelines. Each
platform has the same four stages, run by a Temporal activity:

- **Extraction.** A client pulls raw orders from the platform's API:
  - WooCommerce: REST pages with `page`/`per_page` and a 100-page ceiling.
  - Amazon Selling Partner: `NextToken` pagination, region tables, a sales
    interval, and a token refresh after a 403.
  - Shopify: a recursive GraphQL cursor walk with a date filter.

  Each client paces itself from the previous status code (or, for
  Shopify, from the remaining credits). The WooCommerce and Amazon clients
  retry with a counter of three; the Shopify client does not retry.
- **Transformation.** Each raw order becomes a flat ClickHouse row with a
  fixed column order. Defaults fill absent keys, booleans become 0/1 and
  nested values become JSON text. Every row shares one `batchedAt` stamp.
- **Loading.** The batch is inserted once. The loader reads back
  `MAX(batchedAt)` and compares it with the run's stamp to the second. On a
  match it writes a "healthy" watermark row to the metadata store.
- **Activity.** It resolves the fill type (backfill or incremental) and the
  start time from a nullable `last_run_ts`. It builds the request, and
  skips transform and load when nothing was extracted.

How the model represents these:

- The HTTP layer is a script of replies, one per request, in call order.
  Amazon also has a script of grants, one per call to the token endpoint.
- Every extractor has two parts:
  - a specification function (`Run`, `SalesFrom`, `Fetch`) that walks the
    script and returns how the run ends, the log of waits, refreshes and
    requests it made, and how many replies it consumed;
  - a class method with the source's nested loops, proved equal to that
    function.
- Lemmas about the specification functions state what the loops promise:
  - accumulation order;
  - the page ceiling;
  - pacing;
  - the swallowed third transient status;
  - the three-strikes re-raise.
- Transformers are fail-fast maps over the orders. Each one is a `PrepareRow`
  function, a method with the source's two loops, and lemmas about row
  length, column order, defaults and the shared stamp.
- Loaders are methods over two store classes, `Stores.ColumnStore` and
  `Stores.MetadataStore`, whose fields record the inserts and updates made.
  Each verification decision is a pure function.
- Python values are a JSON-like `Values.Value`. Python's raising
  conversions (`int()`, `float()`, `Decimal()`, `str.lower()`, `.get` on
  a non-dict) are `Result`s carrying the exception they raise.
- Dates are a concrete `DateTimes.DateTime`. It has a fixed-width ISO
  renderer, and a parser for the ISO subset the pipeline produces and
  reads.

Shared modules:

- `Wrappers` holds `Option`, `Result` and the exception kinds.
- `Literals` holds digits, padding, integer and decimal literals,
  `lower()` and the `Z` → `+00:00` replacement.
- `Values` holds JSON values, table cells and the generic row loops.
- `DateTimes` holds dates, `isoformat`/`fromisoformat`/`strptime`, and the
  day arithmetic behind `timedelta`.
- `Stores` holds the two stores.

The code is followed as written, quirks included:

- A third transient status is swallowed, not raised. The retry count goes
  to 4 in the `except` clause, and the outer loop starts the same page
  again.
- `get_sales` then falls through to return `None`.
- Amazon's `int()` on an order's item counts is unguarded.
- The Shopify loader does not guard a null `MAX(batchedAt)`.
- The Amazon activity imports names its transformation module does not
  define, so every run ends in the catch-all's `None`.

## Model

All source paths below are under `temporal/activities/`.

| member | source | states |
|---|---|---|
| Literals.ParseIntStrips | temporal/activities/WooCommerce/src/transformation.py:55 | `int()` of a string ignores the whitespace around the literal |
| Literals.ParseIntGrouped | temporal/activities/WooCommerce/src/transformation.py:55 | `int()` reads two digit runs joined by one underscore as the digits without it |
| WooExtraction.StripSlashes | temporal/activities/WooCommerce/src/extraction.py:11 | `rstrip('/')`: the result is a prefix of the input, does not end in '/', and only '/' characters were removed |
| WooExtraction.WooClient.constructor | temporal/activities/WooCommerce/src/extraction.py:10-19 | the client keeps the request's fields. Its base URL has trailing slashes stripped. `per_page` is the request's value, or 100 when that is absent or 0, so it is never 0. The last status starts at 0 |
| WooExtraction.WooClient.BuildParams | temporal/activities/WooCommerce/src/extraction.py:27-40 | page, per_page, orderby=date and order=asc are always set. `after` is present iff backfill with a CreatedAfter, and `modified_after` iff incremental with a LastUpdatedAfter. Each carries its timestamp, and never both appear |
| WooExtraction.Handle | temporal/activities/WooCommerce/src/extraction.py:72-104 | one reply's effect on the loop. A retry keeps the page and raises the count. A page move advances the page by exactly one. The recorded status is the reply's status, or unchanged when the request raised |
| WooExtraction.WooClient.TryPage | temporal/activities/WooCommerce/src/extraction.py:58-104 | one pass of the try body equals `Handle` on the scripted reply. The field `current_status_code` becomes the reply's status |
| WooExtraction.WooClient.RetryPage | temporal/activities/WooCommerce/src/extraction.py:56-104 | the inner retry loop consumes at least one reply, or ends the run. Its log and status are those of the specification run, up to the point where the outer loop takes over |
| WooExtraction.WooClient.GetOrders | temporal/activities/WooCommerce/src/extraction.py:50-109 | the nested loops return exactly the outcome, log of waits and fetches, and final status of the specification run `Run` from page 1 |
| WooExtraction.HandleAppends | temporal/activities/WooCommerce/src/extraction.py:74-86 | a reply adds its body's orders (only a 200 adds any) after those already held. A raised error is never the internal "max retries" exception |
| WooExtraction.OrdersAccumulate | temporal/activities/WooCommerce/src/extraction.py:76 | the orders returned are the bodies of the consumed 200 replies, concatenated in fetch order, with no dedup or re-sort |
| WooExtraction.PagesWithinCeiling | temporal/activities/WooCommerce/src/extraction.py:84-107 | starting within 1..100, every request the run makes asks for a page between 1 and 100 |
| WooExtraction.MaxRetriesNeverEscapes | temporal/activities/WooCommerce/src/extraction.py:88-104 | the "max retries" exception raised on the third transient status is always caught, so it never ends a run |
| WooExtraction.PageAnswered | temporal/activities/WooCommerce/src/extraction.py:74-107 | after a 200 the run stops with all orders iff page >= X-WP-TotalPages, the page is shorter than `per_page`, or the next page passes 100. Otherwise it continues at page+1 with a fresh retry count |
| WooExtraction.TransientRetried | temporal/activities/WooCommerce/src/extraction.py:42-94 | a transient status with budget left logs the rate-limit waits and the fetch, waits 5×count, and retries the same page with the count raised |
| WooExtraction.TransientSwallowed | temporal/activities/WooCommerce/src/extraction.py:88-104 | a transient status on the last retry waits 20 seconds and restarts the same page with a fresh budget instead of raising |
| WooExtraction.ThirdTransientSwallowed | temporal/activities/WooCommerce/src/extraction.py:88-107 | three transient statuses in a row wait 5, 10 and 20 seconds, then the same page starts again with a fresh budget |
| WooExtraction.FailureRetried | temporal/activities/WooCommerce/src/extraction.py:96-104 | an unexpected status or a request exception with budget left waits 5×count and retries the same page |
| WooExtraction.ThirdFailureRaised | temporal/activities/WooCommerce/src/extraction.py:96-104 | three failures in a row wait 5 then 10 seconds and re-raise the third error |
| WooTransformation.ParseDatetime | temporal/activities/WooCommerce/src/transformation.py:5-15 | a falsy value gives None. A parsed value is valid and always has an offset, so naive times are stamped UTC. The only error is the uncaught one from `'Z' in` on a list or dict containing "Z" |
| WooTransformation.ParseDatetimeZulu | temporal/activities/WooCommerce/src/transformation.py:10-13 | a `...Z` stamp parses as the same time at offset +00:00 |
| WooTransformation.ParseDatetimeIsoFormat | temporal/activities/WooCommerce/src/transformation.py:9-13 | `isoformat` text parses back to the same time, with UTC added when it was naive |
| WooTransformation.ToUint8Spec | temporal/activities/WooCommerce/src/transformation.py:26-31 | the result is 0 or 1. A bool gives 1 iff true. A string gives 1 iff its lower case is "true", "yes" or "1". Anything else gives 1 iff it is truthy |
| WooTransformation.ToJsonSpec | temporal/activities/WooCommerce/src/transformation.py:34-45 | `to_json`/`to_json_array` give '{}'/'[]' exactly for falsy values, and the serialised value otherwise |
| WooTransformation.SafeDecimalSpec | temporal/activities/WooCommerce/src/transformation.py:48-52 | None or unconvertible input gives 0.00. Otherwise the result is the decimal the text denotes; digit strings give their value |
| WooTransformation.PrepareRow | temporal/activities/WooCommerce/src/transformation.py:54-89 | a prepared row carries the connection id and the batch's shared `batchedAt` |
| WooTransformation.EmptyOrderDefaults | temporal/activities/WooCommerce/src/transformation.py:54-89 | an order with no keys gives the documented defaults in every column: 0, '', 0.00, None, '{}', '[]' |
| WooTransformation.IdIsUnguarded | temporal/activities/WooCommerce/src/transformation.py:55 | a present `id` that `int()` rejects makes the whole transform raise |
| WooTransformation.CustomerIdIsUnguarded | temporal/activities/WooCommerce/src/transformation.py:73 | a present `customer_id` that `int()` rejects raises as well |
| WooTransformation.PrepareRowFails | temporal/activities/WooCommerce/src/transformation.py:54-89 | a row fails iff `int()` fails on id, parent_id or customer_id, or a date raises. Every other column is total |
| WooTransformation.ColumnsDistinct | temporal/activities/WooCommerce/src/transformation.py:93-103 | there are 34 column names, all distinct |
| WooTransformation.TransformWooForClickhouse | temporal/activities/WooCommerce/src/transformation.py:17-111 | the two loops of the transform (prepare every row, then order each by the column list) compute `Transform` |
| WooTransformation.TransformShape | temporal/activities/WooCommerce/src/transformation.py:24-111 | one row per order, in input order. Row k is order k's prepared row laid out by column name. The columns are the 34 names, and the third result is the ISO text of the single stamp |
| WooTransformation.TransformStamps | temporal/activities/WooCommerce/src/transformation.py:22-109 | every row has 34 cells, the connection id in cell 1 and the same `batchedAt` in cell 33 |
| WooTransformation.TransformOk | temporal/activities/WooCommerce/src/transformation.py:21-111 | when every order prepares, the batch is those rows ordered by the columns, the column names and the stamp's ISO text |
| WooTransformation.OrderedRowShape | temporal/activities/WooCommerce/src/transformation.py:106-109 | an ordered row has 34 cells, with `connected_id` at index 1 and `batchedAt` at index 33 |
| WooLoading.UpdateFor | temporal/activities/WooCommerce/src/loading.py:62-68 | the watermark update is healthy, active and error-free. It records the store's `MAX(date_modified)` (or now when null) and now. It fails only when that maximum is non-empty text without `.isoformat()` |
| WooLoading.Verify | temporal/activities/WooCommerce/src/loading.py:39-78 | the check raises only ValueError, from `fromisoformat` of the run's stamp |
| WooLoading.VerifyToTheSecond | temporal/activities/WooCommerce/src/loading.py:44-55 | with a stored datetime and a parseable stamp (Z read as +00:00), the check matches iff both render identically to the second |
| WooLoading.StampParses | temporal/activities/WooCommerce/src/loading.py:50-55 | the stamp the transformer returns always parses, and matches iff it agrees with the store to the second |
| WooLoading.Load | temporal/activities/WooCommerce/src/loading.py:8-84 | missing settings raise ValueError before anything is written. Otherwise there is exactly one insert of all rows with the given column names. The metadata update happens only after a match, and a failed update is swallowed. The result is {len(data), "success"} whenever insert and query succeed, and every other failure re-raises |
| WooLoading.UpdateOnlyOnMatch | temporal/activities/WooCommerce/src/loading.py:39-72 | an update is sent only when settings are present, the insert and query succeeded, the row has a truthy `MAX(batchedAt)` and it renders like the stamp to the second. The update is healthy and carries `MAX(date_modified)` or now |
| WooActivity.Resolve | temporal/activities/WooCommerce/activities.py:27-34 | with a `last_run_ts` the fill type is the caller's hint, or backfill when none is given, and the start is that timestamp. Without one it is backfill from exactly 30 days before now at the same clock time. It fails only on calendar underflow |
| WooActivity.RequestFor | temporal/activities/WooCommerce/activities.py:57-66 | the request carries the payload's credentials. CreatedAfter is set iff backfill and LastUpdatedAfter iff incremental, both equal to the start, and PerPage is 100 |
| WooActivity.PagesFilterByPlan | temporal/activities/WooCommerce/activities.py:57-68 | a client built from that request asks for 100 per page, with `after` for backfill and `modified_after` for incremental |
| WooActivity.Finish | temporal/activities/WooCommerce/activities.py:68-92 | an extraction error re-raises. No orders gives {0, "no_data"}. Otherwise it gives {count, "success"} unless transform or load raised, which re-raises. The loader's result is ignored |
| WooActivity.SuccessCountsOrders | temporal/activities/WooCommerce/activities.py:72-87 | a successful activity reports the number of orders extracted, with status "no_data" exactly when there were none |
| WooActivity.Woocommerce | temporal/activities/WooCommerce/activities.py:21-92 | the activity's result is `Activity`. A client is built iff the plan resolves, and it is built from `RequestFor` of that plan |
| AmazonExtraction.RegionTablesAgree | temporal/activities/Amazon/src/extraction.py:44-105 | the orders URL, the sales URL and the timezone offset exist for the same regions. Each URL is the region's NA/EU/FE host with its path, those regions have a marketplace id, and others raise ValueError |
| AmazonExtraction.IrelandMarketplaceOnly | temporal/activities/Amazon/src/extraction.py:106-137 | "IE" is the only region with a marketplace id but no endpoint, and it has no offset either |
| AmazonExtraction.Interval | temporal/activities/Amazon/src/extraction.py:44-72 | an unsupported region raises ValueError. A missing CreatedAfter raises AttributeError. Success needs both |
| AmazonExtraction.IntervalBounds | temporal/activities/Amazon/src/extraction.py:64-70 | the interval is 52 characters, `start--end`, each half parsing to midnight of the start day or today at the region's offset |
| AmazonExtraction.OffsetsParse | temporal/activities/Amazon/src/extraction.py:46-56 | every offset in the table has the ±HH:MM shape |
| AmazonExtraction.AmazonClient.constructor | temporal/activities/Amazon/src/extraction.py:8-21 | the client keeps the request's fields, the fixed client id, the access token obtained, and the region's marketplace id. The last status starts at 0 |
| AmazonExtraction.NewClient | temporal/activities/Amazon/src/extraction.py:8-31 | a refused token exchange raises; otherwise a fresh client is built as above |
| AmazonExtraction.AmazonClient.BuildParams | temporal/activities/Amazon/src/extraction.py:197-207 | with a token only NextToken is sent. Without one, CreatedAfter (as a date) is sent for backfill or LastUpdatedAfter for incremental. A missing date for the chosen fill type raises AttributeError |
| AmazonExtraction.AmazonClient.BuildSalesParams | temporal/activities/Amazon/src/extraction.py:154-158 | the sales parameters are the marketplace ids, the interval and granularity "Day", and exist iff the interval does |
| AmazonExtraction.AmazonClient.EnforceRateLimit | temporal/activities/Amazon/src/extraction.py:33-42 | the action is chosen by the last status: 429 waits 60, 403 refreshes the token (the field takes the new token), >= 500 waits 30, and anything else does nothing |
| AmazonExtraction.Handle | temporal/activities/Amazon/src/extraction.py:210-240 | one reply's effect. A retry raises the count. The orders grow only by a 200 body. The access token is untouched. A raise is never the internal "max retries" exception |
| AmazonExtraction.Attempt | temporal/activities/Amazon/src/extraction.py:192-240 | one try-body pass consumes at most one reply. A retry without a reply raises the count below 3. A page move consumed a reply. Orders grow only by that reply's body |
| AmazonExtraction.AmazonClient.TryOrders | temporal/activities/Amazon/src/extraction.py:192-240 | the method's pass equals `Attempt`, and the status and token fields follow it |
| AmazonExtraction.AmazonClient.GetOrders | temporal/activities/Amazon/src/extraction.py:184-246 | the nested loops return exactly the outcome and log of `Run` from the given token. The status and access-token fields end as in the run |
| AmazonExtraction.OrdersAccumulate | temporal/activities/Amazon/src/extraction.py:212-223 | the orders returned are the `payload.Orders` of the consumed 200 replies, in fetch order |
| AmazonExtraction.MaxRetriesNeverEscapes | temporal/activities/Amazon/src/extraction.py:225-240 | the "max retries" exception is always caught by the inner `except`, so it never ends a run |
| AmazonExtraction.PageAnswered | temporal/activities/Amazon/src/extraction.py:212-243 | after a 200 the run continues from the page's NextToken with a fresh budget while that token is truthy, and stops with all orders otherwise |
| AmazonExtraction.TransientRetried | temporal/activities/Amazon/src/extraction.py:225-230 | a transient status with budget left retries at once (no backoff) with the count raised |
| AmazonExtraction.TransientSwallowed | temporal/activities/Amazon/src/extraction.py:225-243 | a transient status on the last retry waits 20 seconds. It then starts the same token again, or returns the orders so far when there is no token |
| AmazonExtraction.ThirdTransientSwallowed | temporal/activities/Amazon/src/extraction.py:225-243 | three transient statuses from a fresh budget pace by the previous status, wait 20 seconds once, and restart the same token. On the first page the run returns the (possibly empty) list instead of raising |
| AmazonExtraction.RefreshedTokenSent | temporal/activities/Amazon/src/extraction.py:37-209 | after a 403 the token is refreshed first, and the very next request carries the new token |
| AmazonExtraction.UnbuildableRetried | temporal/activities/Amazon/src/extraction.py:194-240 | a request that cannot be built (unsupported region, missing date) waits 5×count and retries |
| AmazonExtraction.UnbuildableRaised | temporal/activities/Amazon/src/extraction.py:235-239 | on the last retry that error re-raises |
| AmazonExtraction.PreRequestFailure | temporal/activities/Amazon/src/extraction.py:235-240 | from a fresh budget an unbuildable request waits 5 and 10 seconds and then raises its error |
| AmazonExtraction.SalesAttempt | temporal/activities/Amazon/src/extraction.py:149-182 | one sales pass consumes at most one reply. A retry raises the count. A return is the body of a 200 reply. A raise is never "max retries" |
| AmazonExtraction.AmazonClient.GetSales | temporal/activities/Amazon/src/extraction.py:144-182 | the retry loop returns exactly the outcome and log of `SalesFrom`, with the fields updated as in the run |
| AmazonExtraction.SalesReturnsBody | temporal/activities/Amazon/src/extraction.py:163-165 | whatever `get_sales` returns is None or the body of a consumed 200 reply |
| AmazonExtraction.SalesTransient | temporal/activities/Amazon/src/extraction.py:167-182 | a transient status retries at once. On the last retry it waits 20 seconds and the count becomes 4 |
| AmazonExtraction.SalesSwallowed | temporal/activities/Amazon/src/extraction.py:148-182 | three transient statuses make `get_sales` fall through and return None after three replies instead of raising |
| AmazonTransformation.ParseDatetime | temporal/activities/Amazon/src/transformation.py:5-23 | falsy input gives None. A parsed value is a valid datetime from a string |
| AmazonTransformation.ParseDatetimeRaises | temporal/activities/Amazon/src/transformation.py:9-23 | the microsecond path does not catch a failed parse. The other path raises only when both the strict pattern and the ISO fallback fail |
| AmazonTransformation.ParseDatetimeStrict | temporal/activities/Amazon/src/transformation.py:17-18 | text matching `%Y-%m-%dT%H:%M:%SZ` parses naive without microseconds, and as UTC on the ISO path |
| AmazonTransformation.ParseDatetimeFallback | temporal/activities/Amazon/src/transformation.py:19-23 | when the strict pattern fails, the plain path gives what the ISO path gives |
| AmazonTransformation.ParseDatetimeIsoFormat | temporal/activities/Amazon/src/transformation.py:9-108 | the ISO text of the batch stamp parses back to the same time |
| AmazonTransformation.OrderTotalSpec | temporal/activities/Amazon/src/transformation.py:42-49 | an absent or empty OrderTotal gives None and ''. Otherwise the amount (default "0.00") is a decimal and the currency code (default '') is kept. A null total always comes with '' |
| AmazonTransformation.OrderTotalInvalidAmount | temporal/activities/Amazon/src/transformation.py:46-48 | an amount that is no decimal raises InvalidOperation, which the `except (TypeError, ValueError)` does not catch |
| AmazonTransformation.BuyerEmailSpec | temporal/activities/Amazon/src/transformation.py:52-54 | BuyerEmail is None unless BuyerInfo is present and holds a BuyerEmail key, and then it is that value |
| AmazonTransformation.JsonCellsSpec | temporal/activities/Amazon/src/transformation.py:57-64 | ShippingAddress is '{}' and OrderItems '[]' exactly when absent or falsy. Otherwise each is the JSON text of the source value |
| AmazonTransformation.ToUint8Spec | temporal/activities/Amazon/src/transformation.py:67-72 | the result is 1 only for True or a string whose lower case is "true". Everything else, numbers and None included, gives 0 |
| AmazonTransformation.PrepareRow | temporal/activities/Amazon/src/transformation.py:75-109 | a row carries the connection id and the parsed shared stamp |
| AmazonTransformation.EmptyOrderDefaults | temporal/activities/Amazon/src/transformation.py:42-109 | an order with no keys gives '', None, 0, [], '{}' and '[]' in the documented columns, and the batch time in `batchedAt` |
| AmazonTransformation.PrepareRowFails | temporal/activities/Amazon/src/transformation.py:44-109 | a row fails iff the order total, the buyer email lookup, one of the four dates or one of the two unguarded `int()` calls raises |
| AmazonTransformation.ColumnsDistinct | temporal/activities/Amazon/src/transformation.py:113-123 | there are 33 column names, all distinct |
| AmazonTransformation.TransformAmazonForClickhouse | temporal/activities/Amazon/src/transformation.py:25-131 | the two loops compute `Transform` |
| AmazonTransformation.TransformShape | temporal/activities/Amazon/src/transformation.py:40-131 | one row per order, in input order, laid out by the 33 column names, with the stamp's ISO text returned |
| AmazonTransformation.TransformStamps | temporal/activities/Amazon/src/transformation.py:38-129 | every row has 33 cells, the connection id at index 1 and the same batch time at index 32 |
| AmazonTransformation.BatchedAtCell | temporal/activities/Amazon/src/transformation.py:38-108 | the re-parsed stamp in each row is exactly the batch time |
| AmazonTransformation.TransformOk | temporal/activities/Amazon/src/transformation.py:36-131 | when every order prepares, the batch is those rows ordered by the columns |
| AmazonTransformation.ProcessAmazonOrders | temporal/activities/Amazon/src/transformation.py:133-154 | the method equals `Process`: `payload.Orders` of the decoded response is iterated as Python iterates it, the leading dicts are transformed, and the first element that is not a dict raises its own exception unless a dict before it raised |
| AmazonTransformation.ProcessWithoutOrders | temporal/activities/Amazon/src/transformation.py:151 | a response without `payload`, or without `Orders`, gives an empty batch |
| AmazonTransformation.ProcessOrders | temporal/activities/Amazon/src/transformation.py:151-154 | the orders under `payload.Orders` are transformed as given, in order |
| AmazonTransformation.ProcessStopsAtNonDict | temporal/activities/Amazon/src/transformation.py:40-75 | after dicts, an element that is not a dict raises: TypeError when `key in order` finds a tested key or cannot run, AttributeError at `order.get` otherwise. An earlier dict's own failure comes first |
| AmazonTransformation.ProcessOtherIterables | temporal/activities/Amazon/src/transformation.py:151-154 | an empty dict or empty string as `Orders` gives an empty batch, a non-empty string raises AttributeError, and None, a bool or a number raises TypeError |
| AmazonActivity.Resolve | temporal/activities/Amazon/activities.py:59-69 | a null `last_run_ts` gives backfill from midnight on day 1 of the previous month in the same year, and raises ValueError in January. Otherwise it gives incremental from the `%Y-%m-%d %H:%M:%S` parse, raising when that fails |
| AmazonActivity.WatermarkRoundTrip | temporal/activities/Amazon/activities.py:64-69 | a watermark written to the second is read back as the same time, incremental |
| AmazonActivity.RequestFor | temporal/activities/Amazon/activities.py:75 | the request always has CreatedAfter = start, LastUpdatedAfter = None and MaxResultsPerPage = 100 |
| AmazonActivity.FirstRequestByPlan | temporal/activities/Amazon/src/extraction.py:197-207 | a backfill client's first request sends the start date. An incremental client's first request raises AttributeError on the missing LastUpdatedAfter |
| AmazonActivity.Activity | temporal/activities/Amazon/activities.py:35-96 | the result is None unless imports resolve, the plan resolves, a token is granted and orders were extracted. In that case it is the loader's result. Every exception gives None |
| AmazonActivity.NothingLoadedWithoutOrders | temporal/activities/Amazon/activities.py:84-93 | with no orders the result is None, whatever the loader would have done |
| AmazonActivity.Amazon | temporal/activities/Amazon/activities.py:35-96 | the activity's result is `Activity`. A client exists iff imports, plan and token succeed, and it is built from `RequestFor` |
| ShopifyExtraction.Bound | temporal/activities/Shopify/src/extraction.py:54-58 | the date is kept. Only a midnight end time moves, to 23:59:59 |
| ShopifyExtraction.FormatDatetime | temporal/activities/Shopify/src/extraction.py:49-63 | the text is 17 characters, `YYYY-MM-DDTHH:MMZ` |
| ShopifyExtraction.FormatCutsSeconds | temporal/activities/Shopify/src/extraction.py:63 | the text is the 19-character date-time with its last three characters (`:SS`) replaced by "Z" |
| ShopifyExtraction.EndOfDay | temporal/activities/Shopify/src/extraction.py:54-63 | a midnight end renders as `T23:59Z` and a midnight start as `T00:00Z` |
| ShopifyExtraction.FormatKeepsMinute | temporal/activities/Shopify/src/extraction.py:63 | two times render alike iff their adjusted bounds agree to the minute |
| ShopifyExtraction.BackfillShape | temporal/activities/Shopify/src/extraction.py:65-74 | the backfill filter holds '<' iff an end is given, and never a double quote |
| ShopifyExtraction.IncrementalShape | temporal/activities/Shopify/src/extraction.py:76-86 | the incremental filter holds '<' iff an end is given, and never a double quote |
| ShopifyExtraction.BackfillStartBound | temporal/activities/Shopify/src/extraction.py:70-73 | the rendered start sits right after `created_at:>='`, shifted by the '(' added when an end is given |
| ShopifyExtraction.IncrementalStartBound | temporal/activities/Shopify/src/extraction.py:81-85 | the rendered start sits right after `(created_at:>='`, shifted by the outer '(' added when an end is given |
| ShopifyExtraction.NewClient | temporal/activities/Shopify/src/extraction.py:11-28 | the endpoint is the shop's at API version 2025-01. Backfill and incremental choose their filters, and any other fill type raises ValueError |
| ShopifyExtraction.RateLimitSpec | temporal/activities/Shopify/src/extraction.py:37-259 | no credits: no wait. A number waits 5 seconds iff below 250. A value that cannot be compared raises TypeError, which is caught, and waits 1 second |
| ShopifyExtraction.MissingThrottleWaits | temporal/activities/Shopify/src/extraction.py:281 | a page without throttle information passes credits 0, so the next page waits 5 seconds |
| ShopifyExtraction.Fetch | temporal/activities/Shopify/src/extraction.py:232-289 | a run consumes at most the replies it is given |
| ShopifyExtraction.PagesInOrder | temporal/activities/Shopify/src/extraction.py:271-285 | the result is each page's nodes followed by the recursive result from `endCursor`, in page order |
| ShopifyExtraction.OnePostPerReply | temporal/activities/Shopify/src/extraction.py:267 | exactly one POST per page read, with no retry. An exhausted script counts the unanswered one |
| ShopifyExtraction.HttpErrorRaised | temporal/activities/Shopify/src/extraction.py:269-289 | an HTTP error status raises at once after the one POST |
| ShopifyExtraction.NextPage | temporal/activities/Shopify/src/extraction.py:279-283 | with `hasNextPage` the next request starts with the new credits' wait and a POST for 250 after `endCursor` |
| ShopifyExtraction.LogOpens | temporal/activities/Shopify/src/extraction.py:247-267 | every call first waits as its credits demand, then posts for 250 records with the cursor and the client's filter |
| ShopifyExtraction.FirstPageNoWait | temporal/activities/Shopify/src/extraction.py:232-267 | the first page never waits and asks for 250 records with no cursor |
| ShopifyTransformation.ParseDatetime | temporal/activities/Shopify/src/transformation.py:13-24 | falsy input gives None. A parsed value is a valid datetime from a string |
| ShopifyTransformation.ParseDatetimeShown | temporal/activities/Shopify/src/transformation.py:13-24 | a timestamp `safe_str` turned into text from a non-string raises ValueError on both paths |
| ShopifyTransformation.ParseDatetimeStrictOnly | temporal/activities/Shopify/src/transformation.py:22-24 | without microseconds, a non-empty string parses iff it matches `%Y-%m-%dT%H:%M:%SZ` exactly, and raises ValueError otherwise |
| ShopifyTransformation.ParseDatetimeZulu | temporal/activities/Shopify/src/transformation.py:16-21 | a strict `...Z` stamp parses on the ISO path as the same time at +00:00 |
| ShopifyTransformation.ParseDatetimeIsoFormat | temporal/activities/Shopify/src/transformation.py:16-280 | the batch stamp's ISO text parses back to the same time |
| ShopifyTransformation.SafeSpec | temporal/activities/Shopify/src/transformation.py:143-158 | `safe_str` is None exactly for None. `safe_bool` is truthiness with False for None. `safe_int`/`safe_list` give 0/[] for None and keep lists. `safe_int` fails only where `int()` does |
| ShopifyTransformation.ExtractMoneyValueSpec | temporal/activities/Shopify/src/transformation.py:136-141 | an empty money object or one without `shopMoney`/amount gives the default. Otherwise the result is `float(amount)` |
| ShopifyTransformation.Fill | temporal/activities/Shopify/src/transformation.py:160-192 | a field loop adds every listed key and keeps the keys it does not list |
| ShopifyTransformation.FillValues | temporal/activities/Shopify/src/transformation.py:160-192 | each listed key holds the converted value of the same input key |
| ShopifyTransformation.FillLoop | temporal/activities/Shopify/src/transformation.py:161-192 | the `for field in …` loop computes `Fill` |
| ShopifyTransformation.Item | temporal/activities/Shopify/src/transformation.py:203-215 | a line item has exactly the fixed 11 keys |
| ShopifyTransformation.EdgeItemSpec | temporal/activities/Shopify/src/transformation.py:199-202 | an edge gives an item iff its node is present and non-empty, and the item is that node's |
| ShopifyTransformation.EdgeItemsKept | temporal/activities/Shopify/src/transformation.py:195-218 | the line items are the kept nodes, one each, in edge order |
| ShopifyTransformation.ItemKeys | temporal/activities/Shopify/src/transformation.py:203-216 | every collected item has the 11 keys |
| ShopifyTransformation.CollectLineItems | temporal/activities/Shopify/src/transformation.py:195-218 | the edge loop computes the line items |
| ShopifyTransformation.CoerceOrderData | temporal/activities/Shopify/src/transformation.py:128-224 | the method computes `Coerce` |
| ShopifyTransformation.CoerceKeys | temporal/activities/Shopify/src/transformation.py:161-222 | a coerced order has every listed key: strings, nullable strings, booleans, quantity, money, nullable money, lineItems and the arrays, whatever the input held |
| ShopifyTransformation.CoerceStrings | temporal/activities/Shopify/src/transformation.py:161-167 | string fields are `safe_str` of the input, None when absent |
| ShopifyTransformation.CoerceBools | temporal/activities/Shopify/src/transformation.py:170-174 | boolean fields are `safe_bool` of the input and False when absent. The quantity is `safe_int`, 0 when absent |
| ShopifyTransformation.CoerceMoney | temporal/activities/Shopify/src/transformation.py:177-192 | money fields are extracted with default 0.0. The two nullable ones are None when absent |
| ShopifyTransformation.CoerceKeepsAmounts | temporal/activities/Shopify/src/transformation.py:194-222 | the array step changes only lineItems, paymentGatewayNames and tags, and lineItems is the collected list |
| ShopifyTransformation.CoercedFlags | temporal/activities/Shopify/src/transformation.py:170-255 | coercing booleans first does not change the 0/1 the transform emits |
| ShopifyTransformation.ColumnsDistinct | temporal/activities/Shopify/src/transformation.py:283-294 | there are 42 column names, all distinct |
| ShopifyTransformation.Convert | temporal/activities/Shopify/src/transformation.py:242-273 | the conversions produce the 16 money cells |
| ShopifyTransformation.PrepareRow | temporal/activities/Shopify/src/transformation.py:238-281 | a row carries the connection id and the parsed shared stamp |
| ShopifyTransformation.EmptyOrderDefaults | temporal/activities/Shopify/src/transformation.py:238-281 | an order with no keys gives '' and None strings, 0 flags, 0 money except the two nullable columns (None), 0 quantity, '[]' JSON columns and the batch time |
| ShopifyTransformation.PrepareRowFails | temporal/activities/Shopify/src/transformation.py:242-273 | a row fails iff a date, a money `Decimal(str(...))` or the quantity `int()` raises |
| ShopifyTransformation.NullableMoneyCells | temporal/activities/Shopify/src/transformation.py:264-265 | the duties and additional-fees cells are None exactly when the order's value is None |
| ShopifyTransformation.AbsentNullableMoneyStaysNone | temporal/activities/Shopify/src/transformation.py:185-265 | an absent duties or fees amount stays None through coerce and transform |
| ShopifyTransformation.FlagCells | temporal/activities/Shopify/src/transformation.py:249-255 | each flag cell is 1 iff the order's value is truthy |
| ShopifyTransformation.TransformForClickhouse | temporal/activities/Shopify/src/transformation.py:226-299 | the two loops compute `Transform` |
| ShopifyTransformation.TransformShape | temporal/activities/Shopify/src/transformation.py:231-299 | one row per order, in input order, laid out by the 42 column names, with the stamp's ISO text returned |
| ShopifyTransformation.TransformStamps | temporal/activities/Shopify/src/transformation.py:230-280 | every row has 42 cells: the connection id at 1, '[]' customer and refunds at 39 and 40, and the same batch time at 41 |
| ShopifyTransformation.BatchedAtCell | temporal/activities/Shopify/src/transformation.py:230-280 | the re-parsed stamp in each row is exactly the batch time |
| ShopifyTransformation.TransformOk | temporal/activities/Shopify/src/transformation.py:228-299 | when every order prepares, the batch is those rows ordered by the columns |
| ShopifyLoading.Check | temporal/activities/Shopify/src/loading.py:29-44 | the check raises only IndexError (no row), AttributeError (`.strftime` on a null maximum) or ValueError (a stamp `fromisoformat` rejects) |
| ShopifyLoading.CheckToTheSecond | temporal/activities/Shopify/src/loading.py:31-34 | with a stored datetime the check matches iff it renders like the parsed stamp to the second |
| ShopifyLoading.NullBatchRaises | temporal/activities/Shopify/src/loading.py:31 | a null `MAX(batchedAt)` is not guarded and raises |
| ShopifyLoading.StampParses | temporal/activities/Shopify/src/loading.py:32-34 | the transformer's stamp always parses, and matches iff it agrees with the store to the second |
| ShopifyLoading.Load | temporal/activities/Shopify/src/loading.py:8-49 | there is exactly one insert of all rows with the given names, with no settings check. The update is applied only on a match. After a match it returns `execute_query`'s bool, False for a failed or zero-row update, and the insert's summary otherwise. Every store failure outside `execute_query` raises |
| ShopifyLoading.ReturnedSelects | temporal/activities/Shopify/src/loading.py:18-49 | after a match the result is True iff the update touched a row, False iff it failed or touched none, and a raise iff the metadata store is not configured; the insert's summary comes back iff there was no match. The update records `MAX(updatedAt)` and the stamp truncated to the second |
| Stores.Healthy | temporal/activities/WooCommerce/src/loading.py:62-68 | a watermark update is active, healthy and error-free, with the given connection, extraction stamp and update time |
| Stores.ColumnStore.Insert | temporal/activities/WooCommerce/src/loading.py:24-28 | an accepted insert appends exactly the written rows and names and reports their count. A rejected one raises and writes nothing |
| Stores.ColumnStore.Query | temporal/activities/WooCommerce/src/loading.py:33-35 | the check query returns the store's rows or raises |
| Stores.MetadataStore.Execute | temporal/activities/WooCommerce/src/database.py:10-62 | `SupabaseDatabase()` raises when a setting is missing. Otherwise `execute_query` never raises: it returns whether the update touched a row, and only such an update is recorded |
| Values.OrderRows | temporal/activities/WooCommerce/src/transformation.py:105-109 | one ordered row per prepared row; cell i is the row's value for column i |
| Values.OrderData | temporal/activities/WooCommerce/src/transformation.py:106-109 | the ordering loop computes `OrderRows` |
| Values.PrepareData | temporal/activities/WooCommerce/src/transformation.py:24-90 | the preparing loop computes `MapResult`: all rows, or the first order's error |
| Values.MapResultFails | temporal/activities/WooCommerce/src/transformation.py:24-90 | the loop succeeds iff every order prepares, and a failure is the first failing order's error |
| Values.MapResultElements | temporal/activities/WooCommerce/src/transformation.py:24-90 | row k is the prepared row of order k |
| DateTimes.IsoRoundTrip | temporal/activities/WooCommerce/src/transformation.py:12-111 | `fromisoformat(isoformat(dt)) == dt` |
| DateTimes.RenderSecondsMatch | temporal/activities/WooCommerce/src/loading.py:46-55 | two times render alike as `%Y-%m-%d %H:%M:%S` iff they agree to the second |
| DateTimes.StrictAndIsoAgree | temporal/activities/Amazon/src/transformation.py:11-23 | text matching the strict `...Z` pattern parses on the ISO path (Z → +00:00) to the same time at UTC |
| DateTimes.MinusDaysOverflow | temporal/activities/WooCommerce/activities.py:34 | subtracting n days succeeds iff the date is at least n days after 0001-01-01 (its day number exceeds n) |
| DateTimes.MinusDaysOrdinal | temporal/activities/WooCommerce/activities.py:34 | subtracting n days lowers the day number by n and keeps the clock time and offset |
| DateTimes.StrptimeRenderSeconds | temporal/activities/Amazon/activities.py:69 | `strptime` reads back what was rendered to the second |

## Left out

- Network and stores. HTTP replies, token grants, the query's rows, and
  whether a store accepts a write are all inputs: scripts or fields of
  `Stores.ColumnStore`/`Stores.MetadataStore`. There is no connection
  pooling, and the ClickHouse client's `close()` is not modelled.
- Time. `asyncio.sleep` and `time` are the `Wait(seconds)` events in the
  logs. `datetime.now()` is a parameter `now` (or `today`).
- Time zones. The host time zone behind `astimezone()` is not modelled.
  Shopify's bounds are rendered from the given wall clock, and Woo's
  `after`/`modified_after` carry the given timestamp without conversion.
- WooActivity.Resolve reads the Woo activity's `datetime.now()` and the
  loader's two `datetime.now()` calls as one `now`.
- Parsers. `fromisoformat` and `strptime` are modelled on the fixed-width
  ISO shapes the pipeline produces and reads: `YYYY-MM-DD`, `T` or space,
  `HH:MM:SS`, an optional 3- or 6-digit fraction, and an optional `±HH:MM`
  offset. Other spellings count as rejected.
- Numbers. `int()`, `Decimal` and `float` read literals with surrounding
  whitespace, an optional sign and digits grouped by single underscores
  (`Decimal` and `float` also a decimal point). `Decimal` and `float` are
  exact reals, so rounding, exponent notation, `inf`/`nan` and non-ASCII
  digits are not modelled. Shopify's `Decimal(str(value))` on a coerced
  value uses the literal of that value.
- AmazonTransformation.OrderTotalSpec: `Decimal` of a list (the
  `[sign, [digits], exponent]` tuple form) is treated as malformed, so it
  raises ValueError and the row gets None and ''. CPython accepts a
  well-formed tuple (`Decimal([0, [1, 2], -1])` is 1.2). No Selling Partner
  reply carries a list as `Amount`, and the tuple form is not modelled.
- WooExtraction.WooClient: the request URL
  (`urljoin(base_url + '/', 'wp-json/wc/v3/orders')`) is not modelled; a
  request is logged as its parameters.
- Iterating a dict. A non-empty dict given as the Amazon `payload.Orders`
  iterates its keys in insertion order, which a map does not keep. The
  model raises TypeError when some key contains a tested order key
  (`OrderTotal`, `BuyerInfo`, `ShippingAddress`, `OrderItems`), where
  Python raises AttributeError if an earlier key contains none.
- Text of values. `json.dumps` is an opaque JSON cell of the value, and
  `str()` of a stored value is an opaque text (`StrOf`). Dict key order is
  not modelled (a dict is a map).
- `list(value)`. Shopify's `safe_list` on a dict is treated as a failure,
  not as the list of its keys. On a string it gives the characters, as
  Python does.
- `extend` with a value that is not a list is treated as a TypeError in
  the Amazon and Shopify extractors, although Python extends with any
  iterable (a dict by its keys, a string by its characters).
- Typed inputs. The WooCommerce 200 body is a list of values by its type,
  so a dict or string body (extended by its keys or characters) and a
  non-iterable body (a TypeError that is retried) are not represented.
  The orders given to `WooTransformation.TransformWooForClickhouse`,
  `ShopifyTransformation.TransformForClickhouse` and
  `ShopifyTransformation.Coerce` are dicts by their type, so a non-dict
  order, which raises AttributeError at `order.get`, is not represented.
  Only the Amazon `process_amazon_orders` models non-dict orders.
- Decoding. `response.json()` decode errors are not modelled: a reply
  carries an already-decoded body. `process_amazon_orders` takes the
  decoded value, so `json.loads` of text is left out.
- The Amazon token endpoint. Its reply is a `Grant` (token or refusal).
  The KeyError for a reply without `access_token` is part of the refusal.
- Script exhaustion. `Exhausted` (and `NoGrant` for an empty grant script)
  marks a run that would go on past its script. The real loop can spin
  forever on persistent transient statuses, which no finite script shows.
- WooExtraction.WooClient.RetryPage: the inner retry loop is its own
  method so that each loop is verified separately. It is the same loop.
- ShopifyExtraction.Fetch: only states that a run consumes at most its
  replies. What the run returns and logs is stated by `PagesInOrder`,
  `OnePostPerReply`, `LogOpens` and `NextPage`.
- Shopify GraphQL text. The selection set (`_return_data_points`) and the
  unused `query_text` strings are not modelled. A request is logged as its
  cursor, page size and filter.
- The Amazon activity's imports. The activity imports names that its
  transformation module does not define, and a loader that is not part of
  this model. Whether those imports resolve is the parameter
  `importsResolve`. Transform and load are inputs (`downstream`), as are
  the extraction results in the Woo activity.
- Logging, `print` and Temporal plumbing (workflows, workers, interceptor)
  are not modelled. The Shopify transformation's `test_async_insert` and
  `__main__` are not modelled either.
- Database wrappers. The Shopify `database.py` that both loaders import is
  not part of this model. `Stores.MetadataStore.Execute` follows the
  WooCommerce and Amazon wrappers' `SupabaseDatabase()` and
  `execute_query`; psycopg2 and the query text are not modelled.
