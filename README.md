# The querypage list module, modelled in Dafny

This project models `ApiQueryQueryPage`, the MediaWiki API query module
that lists the rows of a QueryPage-based special page (a "report", such as
Ancientpages) one page at a time. It has two parts:

* **The registry.** The constructor walks `$wgQueryPages`, a list of
  (class name, page name) entries. It keeps every page name except the three
  "useless" ones (MIMEsearch, LinkSearch, FileDuplicateSearch) in `qpMap`,
  a map from page name to class name. When a name occurs more than once, its
  last entry wins.
* **The runner.** `run()` does these steps in order:
  1. It instantiates the report registered for `qppage` and checks that the
     user may execute it. If not, it dies with `specialpage-cantexecute`.
  2. It adds the header `{name, disabled}` or `{name, cached[, cachedtimestamp]}`,
     or only `{name}` when the report is not cached.
  3. It stops there when the report is disabled (cached but not cacheable).
  4. Otherwise it asks doQuery for `limit + 1` rows from `offset`. It emits
     at most `limit` of them. It sets the continuation to `offset + limit`
     when the extra row exists.
  5. In direct mode it adds one record per row to the API result. It stops
     when a record does not fit, and then sets the continuation to
     `offset + count - 1`, so the next page starts with that row.
  6. In generator mode it collects the rows' titles and hands them to the
     page set in one batch.

  `getCacheMode()` says `private` exactly when the report has a restriction.

Files:

* `wrappers.dfy` holds `Option`.
* `api_output.dfy` holds the framework's side: the `Title`, `Record` and
  `Header` values, plus two classes that stand for the collaborators the
  module writes to. `ApiResult` is the output sink. Its `fits` oracle
  answers whether the next record fits, and the answer is indexed by how
  many records are already stored. `ApiPageSet` is the generator's page set.
* `query_page_spec.dfy` holds the specification functions and the lemmas
  about them:
  * `Collect` is the "build a map from pairs, skip some keys" loop shape.
    It is shared by the registry and by the databaseResult filter.
  * `QpMap`, `CacheHeader`, `MakeRecord`, `AcceptedPrefix` (the sink's
    first refusal), `ListPage` (the counting loop) and `RunOutcome` (all of
    `run()`).
* `api_query_query_page.dfy` holds the imperative code, proved against
  those functions:
  * the class `ApiQueryQueryPage`, with its constructor loop, `Run` and
    `GetCacheMode`;
  * `ListRows`, the `foreach` over the fetched rows;
  * `BuildRecord`, the inner `foreach` over a row's columns.

Collaborators the module calls but does not define become parameters:
* `instantiate` stands for `new $this->qpMap[...]()`.
* `iso` stands for `wfTimestamp(TS_ISO_8601, ...)`.
* The report's `query` field stands for `doQuery`.
* The report's `canExecute` field stands for `userCanExecute($wgUser)`.

`Run` returns the arguments of the doQuery call it made, if it made one.
That is how the model says that no query runs for a denied or disabled
report.

Notes on the model:
* The check `if ($ts)` uses PHP's truthiness on strings, so a cached
  timestamp of `""` or `"0"` adds no `cachedtimestamp`.
* The `in_array` tests compare against fixed non-numeric strings. PHP's
  loose comparison is then plain equality, so they are modelled as set
  membership.
* When the very first record of a page does not fit, the continuation is
  the page's own offset (`NoProgress`). A client that follows it asks for
  the same page again. The arithmetic `offset + count - 1` is kept as written.
* run() indexes `qpMap` directly and has no "unknown report" error. The
  model requires a registered page, which the parameter validation
  guarantees.
* A continuation is also set when the sink refuses a record, even when
  doQuery returned no extra row. It then points at the refused row, so it
  does not mean that the over-fetch found a (limit + 1)-th row.
* No continuation when at most `limit` rows come back holds only when the
  sink took every record (`Exhausted`).
* `Window` is not a member of the module: it is an assumed well-behaved
  report whose doQuery returns the rows of a fixed table as LIMIT n OFFSET
  offset. `DirectPageSeamless` and `GeneratorPageSeamless` are stated over
  such a report.

## Model

| member | source | states |
|---|---|---|
| `QueryPageSpec.Collect` | includes/api/ApiQueryQueryPage.php:58-63 | the map built from (key, value) pairs has no skipped key, and each binding comes from one of the pairs |
| `QueryPageSpec.CollectHasKey` | includes/api/ApiQueryQueryPage.php:59-63 | every pair whose key is not skipped leaves its key in the map |
| `QueryPageSpec.CollectLastWins` | includes/api/ApiQueryQueryPage.php:59-63 | the last pair with a given key decides that key's value |
| `ApiQueryQueryPage.ApiQueryQueryPage.constructor` | includes/api/ApiQueryQueryPage.php:49-64 | the loop over `$wgQueryPages` leaves `qpMap` equal to the registry function `QpMap` of the entries |
| `QueryPageSpec.RegistryKeys` | includes/api/ApiQueryQueryPage.php:43-63 | a page name is a key of `qpMap` exactly when it is not one of the three useless pages and some entry carries it; so no useless page is ever registered |
| `QueryPageSpec.RegistryLastWins` | includes/api/ApiQueryQueryPage.php:58-63 | a registered name maps to the class of its last entry in `$wgQueryPages` |
| `QueryPageSpec.CacheHeader` | includes/api/ApiQueryQueryPage.php:88-99 | the header always has the name; `disabled` exactly when cached and not cacheable; `cached` exactly when cached and cacheable; `cachedtimestamp` only with `cached` and a truthy timestamp, as its ISO 8601 form |
| `QueryPageSpec.MakeRecord` | includes/api/ApiQueryQueryPage.php:117-129 | a record carries the row's value and title, has `timestamp` exactly when the report uses timestamps (the ISO form of the value), and its databaseResult has no standard field |
| `QueryPageSpec.RecordDatabaseResult` | includes/api/ApiQueryQueryPage.php:125-129 | databaseResult has a key exactly for each row column other than namespace, title, value and qc_type, with that column's value |
| `ApiQueryQueryPage.BuildRecord` | includes/api/ApiQueryQueryPage.php:119-129 | the loop over the row's columns builds exactly the record `MakeRecord` describes |
| `QueryPageSpec.AcceptedPrefix` | includes/api/ApiQueryQueryPage.php:131-135 | the number of records the sink takes before its first refusal: every earlier answer is yes, and the answer at that position (if within n) is no |
| `QueryPageSpec.ListPage` | includes/api/ApiQueryQueryPage.php:107-139 | the counting loop emits at most `limit` records; generator mode emits no record and at most `limit` titles; direct mode hands on no titles; a continuation lies between offset and offset + limit |
| `ApiQueryQueryPage.ListRows` | includes/api/ApiQueryQueryPage.php:107-139 | the loop over the fetched rows appends exactly the records of `ListPage` to the result, sets the continuation exactly when `ListPage` has one (else leaves it), and returns its titles in generator mode |
| `QueryPageSpec.RunOutcome` | includes/api/ApiQueryQueryPage.php:78-145 | the run dies with specialpage-cantexecute exactly when the user may not execute the report, before any header or query; a disabled report gets its header and nothing else (no query, records, titles or continuation); otherwise doQuery is asked for exactly limit + 1 rows from offset |
| `ApiQueryQueryPage.ApiQueryQueryPage.Run` | includes/api/ApiQueryQueryPage.php:78-145 | run() leaves the result, the page set, its status and its doQuery call exactly as `RunOutcome` describes: nothing changes on the error path, the header is stored, records are appended, the continuation is set only when there is one, and the page set receives one batch only in generator mode and only when the query ran |
| `QueryPageSpec.LimitReached` | includes/api/ApiQueryQueryPage.php:110-115 | with more than `limit` rows fetched and every record accepted, exactly the first `limit` rows are emitted (or their titles collected) and the continuation is offset + limit |
| `QueryPageSpec.Exhausted` | includes/api/ApiQueryQueryPage.php:110-139 | with at most `limit` rows fetched and every record accepted, every fetched row is emitted in order and there is no continuation |
| `QueryPageSpec.SinkRefusal` | includes/api/ApiQueryQueryPage.php:131-135 | when the sink refuses the record of the c-th row (c ≤ limit) after taking the c - 1 before it, exactly those c - 1 records are emitted and the continuation is offset + c - 1 |
| `QueryPageSpec.GeneratorMode` | includes/api/ApiQueryQueryPage.php:136-143 | generator mode emits no record, collects the titles of the first min(limit, #rows) rows in source order, and has a continuation (offset + limit) exactly when more than `limit` rows were fetched |
| `QueryPageSpec.NoProgress` | includes/api/ApiQueryQueryPage.php:131-135 | the continuation equals the page's own offset exactly when, in direct mode, the first record of the page did not fit |
| `QueryPageSpec.DirectPageSeamless` | includes/api/ApiQueryQueryPage.php:107-135 | over a fixed table, the records are the table's rows from offset up to the continuation (which lies inside the table), or to the end when there is none: the next page neither skips nor repeats a row |
| `QueryPageSpec.GeneratorPageSeamless` | includes/api/ApiQueryQueryPage.php:107-143 | the same for the titles handed to the page set in generator mode |
| `ApiQueryQueryPage.ApiQueryQueryPage.GetCacheMode` | includes/api/ApiQueryQueryPage.php:147-153 | the cache mode is private exactly when the registered report has a non-empty restriction; it does not depend on the user |
| `ApiOutput.ApiResult.AddHeader` | includes/api/ApiQueryQueryPage.php:100 | the header is stored; results and continuation are untouched |
| `ApiOutput.ApiResult.AddResult` | includes/api/ApiQueryQueryPage.php:131-132 | addValue reports whether the record fit and stores it exactly when it did |
| `ApiOutput.ApiResult.SetContinueOffset` | includes/api/ApiQueryQueryPage.php:113 | the continuation offset is set; header and results are untouched |
| `ApiOutput.ApiPageSet.PopulateFromTitles` | includes/api/ApiQueryQueryPage.php:143 | the titles are received as one batch, after the earlier ones |

## Left out

- `execute()` and `executeGenerator()` (lines 66-72) are one-line calls to run() with no page set and with the page set. `Run` takes the page set as a nullable parameter and covers both.
- `extractRequestParams`, and the limit bounds in `getAllowedParams`, are API framework plumbing: a default of 10, `LIMIT_BIG1`/`LIMIT_BIG2` and a minimum of 1. `Run` instead requires a registered page and `limit >= 1`. The offset is any integer.
- `getParamDescription`, `getDescription`, `getPossibleErrors`, `getExamples` and `getVersion` are documentation strings.
- `setIndexedTagName_internal` (line 141) only names the XML tag of the results list.
- `Title::makeTitle` and `addTitleInfo` are not modelled. A title is the pair (namespace, local name).
- `wfTimestamp` date formatting is not modelled. It is the parameter `iso`.
- How `ApiResult::addValue` decides that a record does not fit (result size accounting) is not modelled. It is the `fits` oracle.
- `ApiResult.AddHeader` stores the header unconditionally. The source ignores the return value of that `addValue` call (line 100), so its behaviour does not depend on it.
- The globals `$wgUser`, `$wgQueryPages` and `$IP`, the `require_once` of QueryPage.php, and the dynamic instantiation of a report class become explicit inputs: `Report.canExecute`, the constructor's argument and `instantiate`.
- How each report computes its rows in `doQuery`, and how it refreshes its cache, are not modelled. These are separate report classes. Errors that `doQuery` might throw are not modelled either.
- PHP integer overflow of `offset + limit`, and PHP's conversion of numeric-string array keys to integers, are not modelled. Integers are unbounded, and page names are non-numeric.
- The order of databaseResult's keys is not modelled, because it is a map. In PHP it follows the row's column order.
