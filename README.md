# Registry export script, modelled in Dafny

`fif_api_call.py` exports the register of approved measuring-instrument types from the
public API of the FGIS "Arshin" metrology registry into a spreadsheet. It runs in five steps:

1. It asks the listing endpoint for the number of elements, with `rows = 0`, at most
   `attempts` times (a configuration value).
2. It calls `sys.exit(1)` when the loop index `i` is 9 and the count is still 0.
3. It walks the listing in pages of 100 (`range(0, count, 100)`). Each page request is
   repeated until it gets a 200 response.
4. For every listed item it fetches the detail record at `url + "/" + mit_id`. This
   request is also repeated until it gets a 200 response.
5. It builds one twelve-column row per item and appends the rows in order. When a
   lookup raises, the try block puts the sentinel id `Data error` into the row.

The project models this control flow and proves what a run does. Every `api_call`
takes the next outcome from a given sequence: success (status 200, with the decoded
JSON body) or failure (any other status). An exception raised by `requests.get` itself
is not one of these outcomes; see "Left out". A run is a function of the attempt
budget, the base URL and that sequence.

- `PyJson` (`pyjson.dfy`): the JSON values `response.json()` produces, and the Python
  operations the script applies to them. These are `v[key]`, `v.get(key)`, iteration,
  `';'.join(v)`, `v == 0`, and the integer `range` accepts. An exception is `None`.
- `Paging` (`paging.dfy`): `range` with a positive step, the page size 100, and the
  page arithmetic of the progress line.
- `Rows` (`rows.dfy`): the row builder, meaning the try block's twelve statements in
  order, stopping at the first that raises, and then the `except` handler.
- `Fetching` (`fetching.dfy`): requests, outcomes, the log of calls, and the
  retry-until-success loop. `Retry` is the reference function and `RetryUntilSuccess`
  is the method with the source's `while not result` loop.
- `FifApiCall` (`script.dfy`): the count phase, the fatal check, the listing loop, the
  detail loop and the whole script. Each is a reference function (`CountPhase`,
  `ItemsRun`, `PageRun`, `PagesRun`, `ScriptRun`). A method with the source's loops
  (`CountElements`, `ProcessItems`, `ProcessPage`, `ProcessPages`, `RunScript`) is
  proved to compute it.
- `ScriptProperties` (`properties.dfy`): what a run does. It covers when the script
  reaches `sys.exit(1)`, which requests it makes in which order, which rows the table
  holds, and the fact that failed requests, wherever they fall, change nothing but the
  calls made.

The model follows the code where the code and its documented intent differ:

- **Fatal check.** The count check is the literal `i == 9 and elements_count == 0`, not
  "every attempt failed".
  - With a budget other than 10, failing every count request writes an empty table
    and does not reach `sys.exit(1)` (`NoFatalWithOtherBudget`).
  - With a budget of 10, a count of 0 reported on the tenth attempt reaches
    `sys.exit(1)`, but the same count on an earlier attempt writes an empty table
    (`ZeroCountAt`).
  - A budget of 0 or less leaves `i` unbound, so the check raises NameError
    (`ZeroBudgetCrashes`). The process then ends with status 1 and a traceback.
  - Python's `==` makes a count of `False` equal to 0 (`AsIndex`).
- **Partial rows.** When a lookup in the try block raises, the row is not reduced to a
  single-field sentinel row. The `except` handler only overwrites `id`, so the fields
  assigned before the failing statement stay in the row (`BuildRowOnError`).
- **Crashes outside the try block.** Four failures outside the try block end the run
  with an uncaught exception (exit status 1 with a traceback; `Crashed` in the model):
  - a count body without `result.count` (line 63);
  - a count that `range` rejects, anything but an int or a bool, such as `"250"`,
    `null` or a list (line 82; `AsIndex`);
  - a listing body without an iterable `result.items` (line 91);
  - an item whose `mit_id` is not a string (line 97).

  The NameError of a budget of 0 or less, described under the fatal check above, is a
  fifth uncaught exception.

## Model

| member | source | states |
|---|---|---|
| `PyJson.LookupFindsLast` | fif_api_call.py:106 | a dict has `key` iff some member of the object names it, and then `d[key]` is the value of the last such member |
| `PyJson.Get` | fif_api_call.py:107-117 | `d.get(k)` answers the member when present and JSON null when missing, and raises on anything but a dict |
| `PyJson.Keys` | fif_api_call.py:110 | the keys of the dict decoded from an object: every key named by a member, each once, in the order of its first occurrence |
| `PyJson.Iterate` | fif_api_call.py:91 | `for item in v` succeeds exactly on lists, dicts and strings. A list yields its elements, a dict its distinct keys in first-occurrence order, and a string its characters |
| `PyJson.JoinValue` | fif_api_call.py:110 | `';'.join(v)` succeeds exactly when `v` is iterable and yields only strings |
| `PyJson.RepeatedKeyJoinedOnce` | fif_api_call.py:110 | `';'.join` of the object `{"a": 1, "a": 2}` is `"a"`: a repeated key is joined once |
| `PyJson.SplitJoin` | fif_api_call.py:110 | joining one or more parts with a separator no part contains is undone by splitting at that separator |
| `PyJson.AsIndex` | fif_api_call.py:82 | `range` accepts the count exactly when it is an int or a bool, and it is 0 exactly when `elements_count == 0` holds in Python (0 or False), as the check on line 68 reads it |
| `Paging.PageStartsShape` | fif_api_call.py:82 | the listing loop visits offsets 0, 100, 200, … strictly ascending: ceil(count/100) of them, none for a count of 0 or less |
| `Paging.PageStartsMembers` | fif_api_call.py:82 | an offset is visited iff it is a non-negative multiple of 100 below the count |
| `Paging.PageProgress` | fif_api_call.py:84 | the progress line's page total `count // 100 + int(bool(count % 100))` is the number of pages visited, and its page numbers run 1 … total in step with the offsets |
| `Rows.ColumnNames` | fif_api_call.py:76 | the twelve columns, in order, carry the names of the header list, and no two columns share a name |
| `Rows.FillEffect` | fif_api_call.py:105-119 | the try block stops at the first statement that raises; it completes iff none does, and a field is set iff a statement before the first raise assigns it, holding that value |
| `Rows.FillWithoutRaise` | fif_api_call.py:105-118 | when no statement raises, the block completes and every field assigned holds its assigned value |
| `Rows.FillStopsAt` | fif_api_call.py:105-119 | when column k's statement is the first that raises, the block does not complete and keeps exactly the fields assigned before column k |
| `Rows.BuildRowAssignsAll` | fif_api_call.py:104-118 | with no lookup raising, a column is in the row iff its statement assigns it, with the value assigned |
| `Rows.BuildRowComplete` | fif_api_call.py:106-118 | with no lookup raising, all eleven non-notation columns are present and equal their lookups: `mit_id` and `manufactorer` from the item, `general` and `mit` fields via `.get`, and top-level `status` |
| `Rows.BuildRowNotation` | fif_api_call.py:109-110 | with no lookup raising, `notation` is present iff `general.notation` is not None, and then holds the `;`-join of its strings |
| `Rows.NotationRoundTrip` | fif_api_call.py:110 | a notation list of one or more strings without `;` is recovered from the row's `notation` by splitting at `;` |
| `Rows.BuildRowOnError` | fif_api_call.py:104-120 | when column k's statement is the first to raise, `id` is 'Data error'; every other field is present iff assigned before column k, with that value; nothing after it is set |
| `Rows.BuildRowHasId` | fif_api_call.py:106-120 | every appended row has an id: the item's `mit_id` or 'Data error' |
| `Fetching.Retry` | fif_api_call.py:87-89 | retrying ends at the first success, with all earlier calls failures of the same request; the outcomes consumed plus those left are the outcomes given; with no success every call fails |
| `Fetching.RetryTakesFirstSuccess` | fif_api_call.py:87-89 | the retry never ends iff no outcome is a success; otherwise the body taken is the first success and the successes left follow it |
| `Fetching.FailuresAnywhereIgnored` | fif_api_call.py:87-101 | failures inserted at any point among the outcomes leave the sequence of successes unchanged |
| `Fetching.FailuresBeforeRetryIgnored` | fif_api_call.py:99-101 | any number of failures before the outcomes leave the body and the rest unchanged, and only prepend failed calls |
| `Fetching.RetryUntilSuccess` | fif_api_call.py:87-89 | the `while not result` loop computes `Retry`: the first success's body, the calls made and the position after them |
| `FifApiCall.CountPhase` | fif_api_call.py:59-64 | the count phase makes only count requests (`start` 0, `rows` 0, `number asc`), no more than the budget allows |
| `FifApiCall.CountPhaseStopsAtFirstSuccess` | fif_api_call.py:59-64 | the count loop consumes outcomes in order and stops at the first success; a crash means that success lacks `result.count`; running out means every outcome given failed |
| `FifApiCall.CountPhaseResult` | fif_api_call.py:52-64 | `i` is unbound iff the budget is not positive and is otherwise the index of the last attempt; the count is the success's `result.count`, or stays 0 after a full budget of failures |
| `FifApiCall.CountPhaseAtSuccess` | fif_api_call.py:59-64 | when the first success within the budget is attempt j, the loop breaks there with `i == j` and its `result.count`, or crashes without one |
| `FifApiCall.CountPhaseAllFail` | fif_api_call.py:59-64 | when every attempt within the budget fails, `i` is the last index, the count is 0, and exactly `attempts` calls are made |
| `FifApiCall.CountPhaseRunsOut` | fif_api_call.py:59-61 | fewer failed outcomes than the budget leave the count loop undecided |
| `FifApiCall.CountElements` | fif_api_call.py:49-64 | the `for i in range(attempts)` loop with `break` computes `CountPhase` |
| `FifApiCall.ProcessItems` | fif_api_call.py:91-123 | the detail loop over a page's items computes `ItemsRun`: a retried detail fetch per item, a row built per item and appended in order |
| `FifApiCall.ProcessPage` | fif_api_call.py:84-123 | one pass of the listing loop computes `PageRun`: the retried listing request, then the detail loop over `result.items` |
| `FifApiCall.ProcessPages` | fif_api_call.py:80-124 | the listing loop over `range(0, count, 100)` computes `PagesRun` over `PageStarts(count)` |
| `FifApiCall.RunScript` | fif_api_call.py:49-127 | the whole script computes `ScriptRun`: the count loop, the fatal check, then the listing loop, with every call made |
| `ScriptProperties.FatalExitCondition` | fif_api_call.py:68-70 | the script reaches `sys.exit(1)` iff the count loop ended with `i == 9` and a count equal to 0. An uncaught exception (`Crashed`) also ends the process with status 1, but with a traceback instead of the message |
| `ScriptProperties.FatalExitWithTenAttempts` | fif_api_call.py:59-70 | with a budget of 10, it reaches `sys.exit(1)` iff the first nine count requests fail and the tenth fails or reports a count of 0 (or False) |
| `ScriptProperties.FatalAfterTenFailures` | fif_api_call.py:59-70 | ten failed count requests end the script with exactly those ten calls |
| `ScriptProperties.NoFatalWithOtherBudget` | fif_api_call.py:59-82 | with a positive budget other than 10, failing every count request does not exit; it writes an empty table after exactly `attempts` calls |
| `ScriptProperties.ZeroCountAt` | fif_api_call.py:59-82 | with a budget of 10 attempts, a count of 0 on one of the first nine attempts writes an empty table; on the tenth it reaches `sys.exit(1)` |
| `ScriptProperties.ZeroBudgetCrashes` | fif_api_call.py:59-68 | a budget of 0 or less makes no request and crashes at the check, where `i` is unbound |
| `ScriptProperties.FatalExitMakesOnlyCountRequests` | fif_api_call.py:59-70 | `sys.exit(1)` follows exactly ten count requests, the first nine failed, and no listing or detail request |
| `ScriptProperties.ItemsRunFollowsItems` | fif_api_call.py:91-123 | however it ends, the detail loop makes only requests without parameters, so no listing request (every listing request carries `params`); a completed loop appends one row per item, in order, built from the item and the record fetched at `url/mit_id` |
| `ScriptProperties.ItemsRunMakesDetailRequests` | fif_api_call.py:91-101 | however it ends, every call the detail loop makes requests a URL below `url/` without parameters |
| `ScriptProperties.PageRunFollowsListing` | fif_api_call.py:87-123 | a completed page makes one successful listing request at its offset, and its rows match the listed items one to one |
| `ScriptProperties.PagesRunFollowsListing` | fif_api_call.py:82-123 | a completed listing requests each given offset once, successfully, in order; the rows match the listed items and their detail records one to one, in listing order |
| `ScriptProperties.WrittenTableFollowsListing` | fif_api_call.py:59-127 | a written table comes from a count `range` accepts; the pages fetched are exactly 0, 100, … below it in order; each row is built from one listed item and the detail record fetched at its URL |
| `ScriptProperties.RetryLeavesLaterSuccesses` | fif_api_call.py:87-101 | two outcome sequences with the same successes make a retry end the same way, with the same body, and leave the same successes |
| `ScriptProperties.DetailFailuresIgnored` | fif_api_call.py:91-123 | wherever failed detail requests fall, outcome sequences with the same successes end the detail loop the same way, with the same rows, and leave the same successes |
| `ScriptProperties.PageFailuresIgnored` | fif_api_call.py:87-89 | failed listing requests before a success do not change how a page ends, its rows, or the outcomes left |
| `ScriptProperties.PageRunSeesOnlySuccesses` | fif_api_call.py:87-123 | outcome sequences with the same successes end one page the same way, with the same rows, and leave the same successes |
| `ScriptProperties.ListingFailuresIgnored` | fif_api_call.py:82-124 | wherever failed listing or detail requests fall, outcome sequences with the same successes end the listing the same way and write the same table |
| `ScriptProperties.InsertedFailuresIgnored` | fif_api_call.py:82-124 | any number of failures inserted at any point among the listing's outcomes leave the listing's end and its table as they were |

## Left out

- HTTP itself is not modelled. `requests.get` and the status-code test collapse into
  one outcome per call: success with a decoded body, or failure.
- Exceptions raised by `requests.get` itself are not modelled: connection refused, a
  DNS failure, a timeout. No `try` surrounds the calls on lines 61, 89 and 101, so such
  an exception ends the run in any phase. None of the retry loops retries it. Only a
  non-200 status is a failure that the loops retry. The model has no outcome for a
  transport exception, so the runs it describes are those in which none occurs.
  - A 200 response whose body is not valid JSON makes `response.json()` raise. This is
    not modelled: a success always carries a decoded value.
- The `time.sleep` delay between requests is not modelled. It has no effect on the
  result.
- Configuration reading with `configparser` is not modelled. The attempt budget and
  the base URL are parameters. The output file name and the delay are not used.
- The console output is not modelled: the start and finish timestamps, the progress
  lines and the dots. The progress line's page arithmetic is modelled (`PageProgress`)
  but the printing is not.
- The `pandas` DataFrame and `to_excel` are not modelled. The table is the sequence of
  appended rows, and a row is a map from column to JSON value. Columns absent from a
  row become empty cells in the spreadsheet, which is not modelled.
- JSON floats are left out. A float count would make `range` raise, and the model has
  no value of that kind.
- Running out of outcomes is not modelled as script behaviour. The retry loops never
  give up. When the outcome sequence ends while a request is still being retried, the
  model reports `Stalled`, `Stall` or `CountStalled`. This means the sequence was too
  short to decide the run.
