# Notion bulk archival: a verified model

The repository is a small web service. It archives (or moves to the trash)
every page of a fixed set of Notion databases. It has two parts:

- an HTTP endpoint, `POST /api/delete`. It checks that the request carries a
  Notion token, fills in the defaults of the task payload, asks the task
  runner to start the `delete-notion-items` task, and answers with what was
  started;
- the background task, `deleteNotionItems`. It resolves the database names
  against a static five-entry table and pages through each database with a
  cursor. Unless it is a dry run, it sends one `pages.update` call per
  returned page. It tallies the outcome in a mutable `results` object:
  totals, per-database counters and an ordered list of error messages.

The model is written in Dafny and follows the code's own shape.

- **The task** (`delete_task.dfy`) is imperative.
  - A class `TaskRun` holds the fields of `results` plus a trace of the calls
    the run makes to Notion and of the 350 ms pauses it takes between them.
  - `ProcessRecord` is the body of the innermost loop and `ProcessPage` that
    loop over one page's results. `ProcessDatabase` is one pass of the
    database loop with its `while (hasMore)` loop, and `ProcessAll` is the
    database loop itself.
  - `DeleteNotionItems` runs the whole task.
  - Each method is proved equal to a specification function (`Tally`,
    `TallyAll`, `Traverse`, `TraverseAll`, `Outcome`) of the state it started
    from.
- **The Notion store** is an input.
  - `store[i]` is the sequence of answers the i-th database traversal receives
    to its successive queries. Each answer is a page of results or a failed
    query.
  - Each returned page item carries the answer its own update call would get:
    archived, or failed with a message.
  - The client's retries are folded into these answers: an answer is what the
    retrying client finally returns.
- **What a traversal does** is stated by reference functions in
  `delete_task_summary.dfy`, and run-level properties are proved in
  `delete_task_properties.dfy`:
  - the items served and the queries sent, with their cursors;
  - the update requests sent, and the pause after each successful one;
  - the messages appended;
  - the counters added.
- **Two end-to-end runs** are worked out in `delete_task_scenarios.dfy`.
- **The backoff rule** of `createNotionClient`'s `onFailedAttempt` is a pure
  function in `retry_backoff.dfy`.
- **The HTTP handler** `POST` is a pure function from the parsed body, the
  configured fallback token and the trigger API's reply to the payload it
  forwards and the response it returns (`delete_route.dfy`).
- **Route and task together.** `pipeline.dfy` connects the two: a request
  that omits `dryRun` starts a task that changes nothing.

Where the code behaves in a way a reader might not expect, the model follows
the code:

- An empty `databases` array is truthy, so the task processes no database.
  It does not fall back to all five.
- A name outside the table is not rejected before any call. A name that is
  none of the table's own keys is looked up as `undefined` and queried with an
  undefined database id.
- The task's own `dryRun` default is falsy: a task payload without `dryRun`
  mutates. The safe default of `true` comes from the route alone.
- The 350 ms pause follows only a successful update, not a failed one.
- A failed update's message reads "Failed to archive page …".
- `parseInt` is called without a radix, so a `retry-after` header starting
  with "0x" or "0X" is read as a hexadecimal number of seconds.

## Model

| member | source | states |
|---|---|---|
| `NotionDatabases.Keys` | src/app/api/delete/route.ts:54 | `Object.keys(NOTION_DATABASES)`: the five keys, in declaration order |
| `NotionDatabases.LookupIn` | src/app/trigger/delete-notion-items.ts:6-12 | property lookup gives `undefined` exactly when no entry has the key; otherwise the id of the first entry with that key |
| `NotionDatabases.Lookup` | src/app/trigger/delete-notion-items.ts:83 | among own keys, `NOTION_DATABASES[name]` is defined exactly for the five, and each gives its own id (inherited names are left out) |
| `NotionDatabases.TableKeysDistinct` | src/app/trigger/delete-notion-items.ts:6-12 | the table's five keys are pairwise distinct |
| `RetryBackoff.Throttled` | src/app/trigger/delete-notion-items.ts:33 | only an `APIResponseError` with status 429 is throttled |
| `RetryBackoff.LeadingDigits` | src/app/trigger/delete-notion-items.ts:34 | the longest prefix of digits of the radix: decimal digits, or hexadecimal digits after "0x"/"0X" |
| `RetryBackoff.RetryAfterText` | src/app/trigger/delete-notion-items.ts:34 | `retry-after \|\| "5"`: a present, non-empty header is used as is; otherwise "5" |
| `RetryBackoff.Backoff` | src/app/trigger/delete-notion-items.ts:32-36 | a wait is added exactly for an `APIResponseError` with status 429; with no header, or an empty one, the wait is 5 seconds; a "0x"/"0X" header is read in base 16 |
| `RetryBackoff.PauseMillis` | src/app/trigger/delete-notion-items.ts:35 | a wait of n seconds passes `n * 1000` to `setTimeout`; a non-throttled failure adds no wait |
| `RetryBackoff.LeadingDigitsOfNumber` | src/app/trigger/delete-notion-items.ts:34 | the longest digit prefix of a number followed by a non-digit is that number, in base 10 or 16 |
| `RetryBackoff.HeaderSecondsHonoured` | src/app/trigger/delete-notion-items.ts:33-35 | a 429 whose `retry-after` starts with the decimal n (other than "0" followed by "x"/"X") waits n seconds, that is `n * 1000` ms |
| `RetryBackoff.HexHeaderSecondsHonoured` | src/app/trigger/delete-notion-items.ts:33-34 | a 429 whose `retry-after` is "0x" or "0X", hexadecimal digits h, then a non-digit waits the value of h in seconds |
| `RetryBackoff.HexHeaderExamples` | src/app/trigger/delete-notion-items.ts:34 | "0x10" waits 16 seconds; "0x" alone is not a number |
| `DeleteTask.Truthy` | src/app/trigger/delete-notion-items.ts:118 | an absent flag, or `false`, is falsy |
| `DeleteTask.Resolve` | src/app/trigger/delete-notion-items.ts:81-89 | a given list resolves name by name in caller order through the table lookup, with an id exactly for table keys (an empty list gives no database); no list gives the five table entries in order |
| `DeleteTask.ArchiveFailure` | src/app/trigger/delete-notion-items.ts:136 | a failed update's message names the page and the database and ends with the cause |
| `DeleteTask.DatabaseFailure` | src/app/trigger/delete-notion-items.ts:149 | a failed query's message names the database and ends with the cause |
| `DeleteTask.RequestFor` | src/app/trigger/delete-notion-items.ts:120-124 | the request is for that page, sets `archived`, and has `in_trash` (only ever true) exactly when `archiveInstead` |
| `DeleteTask.Reset` | src/app/trigger/delete-notion-items.ts:98-103 | the database's entry becomes `{name, 0, 0, 0}`; other entries, the totals, `errors` and the call trace are unchanged |
| `DeleteTask.Tally` | src/app/trigger/delete-notion-items.ts:114-139 | one record never adds or removes a `databaseResults` entry |
| `DeleteTask.TallyAll` | src/app/trigger/delete-notion-items.ts:114-141 | the loop over `response.results` never adds or removes a `databaseResults` entry |
| `DeleteTask.TaskRun.constructor` | src/app/trigger/delete-notion-items.ts:67-78 | `results` starts with zero totals, no errors, no entries, and no call made |
| `DeleteTask.TaskRun.ProcessRecord` | src/app/trigger/delete-notion-items.ts:114-139 | the new `results` and trace are `Tally` of the old: count the record; unless dry, send one update and count its success and pause 350 ms, or count its failure with its message |
| `DeleteTask.TaskRun.ProcessPage` | src/app/trigger/delete-notion-items.ts:114-141 | the new state is `TallyAll` of the old: each of the page's records in order |
| `DeleteTask.TaskRun.ProcessDatabase` | src/app/trigger/delete-notion-items.ts:92-152 | the new state is `Traverse` of the old: reset the entry, query page after page until `has_more` is false or a query fails, tally each item, and record a failed query's message |
| `DeleteTask.TaskRun.ProcessAll` | src/app/trigger/delete-notion-items.ts:92-153 | the new state is `TraverseAll` of the old: each database in order, with its own answers |
| `DeleteTask.DeleteNotionItems` | src/app/trigger/delete-notion-items.ts:58-156 | the returned `results` and the calls made are `Outcome(payload, store)`: fresh results, then every resolved database in order |
| `DeleteTaskSummary.StopIndex` | src/app/trigger/delete-notion-items.ts:106-145 | the position of the last query of a traversal: the first answer that fails or has `has_more` false |
| `DeleteTaskSummary.AbortMessages` | src/app/trigger/delete-notion-items.ts:148-152 | one "Failed to process database" message exactly when the traversal ends on a failed query |
| `DeleteTaskSummary.QueryLog` | src/app/trigger/delete-notion-items.ts:106-145 | one query per answer up to and including the stopping one |
| `DeleteTaskSummary.ArchivedCount` | src/app/trigger/delete-notion-items.ts:126-127 | at most one success per item |
| `DeleteTaskSummary.FailedCount` | src/app/trigger/delete-notion-items.ts:134-135 | every item is counted as either a success or a failure: the two counts sum to the number of items |
| `DeleteTaskSummary.FailureMessages` | src/app/trigger/delete-notion-items.ts:136-137 | exactly one message per failed update |
| `DeleteTaskSummary.Requests` | src/app/trigger/delete-notion-items.ts:120-124 | one update request per item, in order, each for that item's id |
| `DeleteTaskSummary.CountsAppend` | src/app/trigger/delete-notion-items.ts:114-141 | the counts and messages of consecutive items add up |
| `DeleteTaskSummary.TallyResult` | src/app/trigger/delete-notion-items.ts:114-139 | one record adds 1 to `processed`, and adds its success or failure (nothing in a dry run) to the totals and to its database's entry |
| `DeleteTaskSummary.TallyCalls` | src/app/trigger/delete-notion-items.ts:118-132 | one record sends no query, one update request unless the run is dry, and one pause exactly when that update succeeds |
| `DeleteTaskSummary.TallyPaced` | src/app/trigger/delete-notion-items.ts:118-132 | the pause a record adds comes right after its update request and lasts 350 ms |
| `DeleteTaskSummary.TallyAllResult` | src/app/trigger/delete-notion-items.ts:114-141 | a page's items add their number, successes, failures and failure messages, in order |
| `DeleteTaskSummary.TallyAllQueries` | src/app/trigger/delete-notion-items.ts:114-141 | processing a page's items sends no query |
| `DeleteTaskSummary.TallyAllUpdates` | src/app/trigger/delete-notion-items.ts:114-141 | processing a page's items sends their update requests in order, or none in a dry run |
| `DeleteTaskSummary.TallyAllPauses` | src/app/trigger/delete-notion-items.ts:114-141 | processing a page's items pauses once per successful update, and never in a dry run |
| `DeleteTaskSummary.TallyAllPaced` | src/app/trigger/delete-notion-items.ts:114-141 | processing a page's items keeps every pause right after an update request |
| `DeleteTaskSummary.PaginateResult` | src/app/trigger/delete-notion-items.ts:106-152 | the pagination loop adds the counts and messages of every item served before it stops, then the abort message |
| `DeleteTaskSummary.PaginateQueries` | src/app/trigger/delete-notion-items.ts:106-145 | the pagination loop sends exactly the queries of `QueryLog`: the given cursor first, then each previous answer's `next_cursor` |
| `DeleteTaskSummary.PaginateUpdates` | src/app/trigger/delete-notion-items.ts:106-145 | the pagination loop sends one update per item served, in order, or none in a dry run |
| `DeleteTaskSummary.PaginatePauses` | src/app/trigger/delete-notion-items.ts:106-145 | the pagination loop pauses once per successful update of the items served |
| `DeleteTaskSummary.PaginatePaced` | src/app/trigger/delete-notion-items.ts:106-145 | the pagination loop keeps every pause right after an update request |
| `DeleteTaskSummary.TraverseTotals` | src/app/trigger/delete-notion-items.ts:114-135 | one traversal adds its items to `totalProcessed`, and their successes and failures to the totals |
| `DeleteTaskSummary.TraverseEntries` | src/app/trigger/delete-notion-items.ts:98-135 | after one traversal, its database's entry holds exactly that traversal's counts, and no other entry changes |
| `DeleteTaskSummary.TraverseErrors` | src/app/trigger/delete-notion-items.ts:133-152 | one traversal appends its items' failure messages, then the abort message |
| `DeleteTaskSummary.TraverseQueries` | src/app/trigger/delete-notion-items.ts:96-145 | one traversal sends the queries of `QueryLog`, the first without a cursor |
| `DeleteTaskSummary.TraverseUpdates` | src/app/trigger/delete-notion-items.ts:114-124 | one traversal sends one update per item served, in order, unless dry |
| `DeleteTaskSummary.TraversePauses` | src/app/trigger/delete-notion-items.ts:96-145 | one traversal pauses once per successful update of the items served, never in a dry run |
| `DeleteTaskSummary.TraversePaced` | src/app/trigger/delete-notion-items.ts:96-145 | one traversal keeps every pause right after an update request |
| `DeleteTaskSummary.TraverseEffect` | src/app/trigger/delete-notion-items.ts:92-152 | the entry, totals, errors, queries, updates and pauses of one database traversal at once |
| `DeleteTaskProperties.AbortCount` | src/app/trigger/delete-notion-items.ts:148-152 | at most one aborted traversal per database |
| `DeleteTaskProperties.TraverseAllProcessed` | src/app/trigger/delete-notion-items.ts:92-116 | across databases, `totalProcessed` grows by every item served |
| `DeleteTaskProperties.TraverseAllErrors` | src/app/trigger/delete-notion-items.ts:133-152 | across databases, `errors` grows by one message per failed update and one per aborted database |
| `DeleteTaskProperties.TraverseAllQueries` | src/app/trigger/delete-notion-items.ts:92-145 | across databases, the queries are each database's `QueryLog`, database after database |
| `DeleteTaskProperties.TraverseAllUpdates` | src/app/trigger/delete-notion-items.ts:92-141 | across databases, the updates are each database's items' requests, database after database |
| `DeleteTaskProperties.TraverseAllKeeps` | src/app/trigger/delete-notion-items.ts:114-139 | outside a dry run `processed == successful + failed` is kept, per entry and in total; a dry run keeps every success and failure counter at zero |
| `DeleteTaskProperties.AllSentShape` | src/app/trigger/delete-notion-items.ts:120-124 | every request sets `archived`, sets `in_trash` (only ever to true) exactly when `archiveInstead`, and a dry run sends none |
| `DeleteTaskProperties.DryRunSafety` | src/app/trigger/delete-notion-items.ts:114-118 | with `dryRun` truthy: no update call, every success and failure counter zero, and `totalProcessed` equal to all items served |
| `DeleteTaskProperties.PerRecordTally` | src/app/trigger/delete-notion-items.ts:115-139 | without a dry run, each processed record is exactly one success or one failure, per database and in total, even when a later query aborts |
| `DeleteTaskProperties.RunTotals` | src/app/trigger/delete-notion-items.ts:114-152 | `totalProcessed` is the number of items served, and `errors.length == failed + aborted databases` |
| `DeleteTaskProperties.RunQueries` | src/app/trigger/delete-notion-items.ts:105-145 | the run's queries are, database by database, one per page up to the stopping one |
| `DeleteTaskProperties.TraverseAllPauses` | src/app/trigger/delete-notion-items.ts:92-141 | across databases, the trace gains one pause per record counted as successful |
| `DeleteTaskProperties.TraverseAllPaced` | src/app/trigger/delete-notion-items.ts:92-141 | across databases, every pause stays right after an update request |
| `DeleteTaskProperties.RunPauses` | src/app/trigger/delete-notion-items.ts:118-132 | a run pauses exactly `successful` times, each pause 350 ms and right after an update request, and a dry run never pauses |
| `DeleteTaskProperties.QueryLogChained` | src/app/trigger/delete-notion-items.ts:143-144 | the first query has no cursor; each later one follows a page with `has_more` and carries that page's `next_cursor` |
| `DeleteTaskProperties.UpdateRequestShape` | src/app/trigger/delete-notion-items.ts:120-124 | every update request of a run sets `archived: true`, and `in_trash: true` exactly when `archiveInstead` is truthy |
| `DeleteTaskProperties.TraverseAllSums` | src/app/trigger/delete-notion-items.ts:98-135 | with distinct names, each total stays the sum of that counter over the entries |
| `DeleteTaskProperties.DistinctNamesTotals` | src/app/trigger/delete-notion-items.ts:98-135 | when the resolved names are distinct, `totalProcessed`, `successful` and `failed` are the sums over the databases' entries |
| `DeleteTaskProperties.TraverseAllKeys` | src/app/trigger/delete-notion-items.ts:92-103 | the database loop adds an entry for each of its databases' names and for no other name |
| `DeleteTaskProperties.RunKeys` | src/app/trigger/delete-notion-items.ts:81-103 | the returned `databaseResults` has an entry for exactly the resolved names |
| `DeleteTaskProperties.DefaultRunTotals` | src/app/trigger/delete-notion-items.ts:86-89 | a run without `databases` always has totals equal to the sums over the five entries |
| `DeleteTaskProperties.RepeatedNameReset` | src/app/trigger/delete-notion-items.ts:98-103 | a name given twice keeps one entry, holding only the second traversal's count, while `totalProcessed` counts both |
| `DeleteTaskScenarios.AllArchivedRun` | src/app/trigger/delete-notion-items.ts:92-152 | two databases, three records then none, all archived: totals 3/3/0, no errors, the second entry all zeros |
| `DeleteTaskScenarios.AllArchivedRequests` | src/app/trigger/delete-notion-items.ts:118-124 | that run sends the three updates in order, each with `in_trash: true` |
| `DeleteTaskScenarios.AllArchivedPauses` | src/app/trigger/delete-notion-items.ts:126-132 | that run pauses three times, each right after an update |
| `DeleteTaskScenarios.OneFailureRun` | src/app/trigger/delete-notion-items.ts:114-139 | one database, two records, the second update failing: 2 processed, 1 successful, 1 failed, one message naming the second record and the database |
| `DeleteRoute.HasToken` | src/app/api/delete/route.ts:32 | an absent or empty token fails the check |
| `DeleteRoute.ErrorMessage` | src/app/api/delete/route.ts:81 | an `Error` gives its message; anything else "Internal server error" |
| `DeleteRoute.Action` | src/app/api/delete/route.ts:76 | "archive" exactly when archiving, "delete" exactly when not |
| `DeleteRoute.SuccessMessage` | src/app/api/delete/route.ts:72 | "archiving" when archiving, otherwise "deleting", in the fixed message |
| `DeleteRoute.ForwardedPayload` | src/app/api/delete/route.ts:51-58 | forwards the caller's token; `databases` defaults to every table key (a given list, even an empty one, is kept); for boolean flags, `dryRun` and `archiveInstead` are false only when given as false |
| `DeleteRoute.Post` | src/app/api/delete/route.ts:26-87 | an unparsable body gives 500 with the parse error; a missing or empty token gives 400 "notionToken is required" and nothing is sent; otherwise the defaulted payload is sent; a non-ok reply gives 500 "Failed to trigger task: <text>"; status 200 exactly when triggered, echoing the task id, `dryRun`, `databases`, `action` and `message` |
| `DeleteRoute.FallbackTokenUnused` | src/app/api/delete/route.ts:32-40 | the configured token never changes the outcome, and the forwarded token is always the caller's |
| `Pipeline.TaskPayload` | src/app/trigger/delete-notion-items.ts:14-20 | the route's payload reaches the task with every field present and the same truth values |
| `Pipeline.DefaultDatabasesAgree` | src/app/api/delete/route.ts:54 | the route's default list resolves exactly as the task's own default |
| `Pipeline.OmittedDryRunIsSafe` | src/app/api/delete/route.ts:55 | a request without `dryRun` starts a task that sends no update and counts nothing as successful or failed |
| `Pipeline.ExplicitRunTallies` | src/app/api/delete/route.ts:55 | a request with `dryRun: false` starts a real run in which every record is a success or a failure |

## Left out

- `p-retry` is not part of this model, nor is how many attempts it makes or
  which errors it retries. A query or update is modelled only by its final
  success or failure. With `retries: 5` the client makes up to six attempts,
  not five, and `onFailedAttempt` classifies nothing: throttling only adds
  an extra wait before the next attempt. The attempts and the waits are not
  in the trace. The extra wait `onFailedAttempt` adds is
  `RetryBackoff.Backoff`; `p-retry`'s own delay between attempts is not
  modelled.
- The 350 ms pause after a successful update is a `Pause` event in the
  trace, placed and counted; the time it takes is not modelled.
- Logging through `logger` and `console.error` is left out; it has no effect
  on results.
- The Notion SDK, `fetch`, `NextResponse`, `request.json()` and
  `process.env` are foreign code and I/O. They are replaced by inputs: the
  store's answers, the parsed body, the fallback token and the trigger reply.
- The opaque `filter` is passed through untouched and never inspected.
- A request body of `null` is not modelled separately. Reading its
  `notionToken` throws a `TypeError`, which is covered only as an
  `Unparsable` body with some message. A number, string, boolean or array
  body reads `notionToken` as `undefined` and gets the 400 answer; it is
  covered as an object body without a token.
- Non-string `notionToken` values are left out. The route's token is a string
  or absent.
- `DeleteRoute.ForwardedPayload`, `DeleteRoute.Post`: `dryRun` and
  `archiveInstead` are modelled as booleans or absent. A non-boolean JSON
  value such as `0`, `""` or `"false"` is forwarded unchanged by `??` and
  then read by truthiness in the task, so `0` or `""` would make a real run
  and `"false"` a dry run; these values are left out.
- `DeleteTask.Resolve`, `DeleteRoute.ForwardedPayload`: `databases` is
  modelled as an array of strings or absent. The body is unvalidated JSON,
  and the route forwards any truthy value of `body.databases`. A truthy
  non-array, such as the string `"QBO_PROJECTS"` or an object, makes
  `payload.databases.map` throw a `TypeError` outside the per-database `try`,
  so the whole task fails and returns no `results`. A falsy non-array (`0`,
  `""`, `false`) falls back to all five keys. These values are left out.
- `NotionDatabases.Lookup`: only the table's own keys are modelled. A name
  inherited from `Object.prototype`, such as `toString` or `constructor`,
  resolves to a function that the task would send as the database id, and
  `"__proto__"` would replace the prototype of `databaseResults` rather than
  add an entry. The model treats all of these as names outside the table.
- `databaseResults` is a `map`, so the key insertion order of the returned
  object, which shows in its JSON, is not modelled.
- `RetryBackoff.Backoff`: a header that `parseInt` reads past leading blanks or
  a sign, or turns into NaN, gives `PauseUnparsed`. Its wait is not computed.
  Numbers beyond the exact range of a JavaScript double are taken exactly.
- `RetryBackoff.PauseMillis`: requires a parsed pause, because the wait for an
  unparsed header is not modelled. It is the argument given to `setTimeout`;
  Node fires a delay above 2^31 - 1 ms after 1 ms instead, which is not
  modelled.
- `DeleteTask.DeleteNotionItems`: requires that every traversal's answers end
  (`Covers`). The real loop never ends against a store that always answers
  `has_more: true`.
- Data paired with a database traversal by position: `store[i]` serves the
  i-th traversal. A repeated name can therefore see different pages each time,
  as a real store could between two passes.
- `DeleteTask.Tally`, `DeleteTask.TallyAll`: their own contracts say only that
  no entry is added or removed. What they compute is stated by
  `DeleteTaskSummary.TallyResult` and `DeleteTaskSummary.TallyAllResult`.
- `DeleteTask.Paginate`, `DeleteTask.Traverse`, `DeleteTask.TraverseAll`,
  `DeleteTask.Outcome` carry no contract of their own. What they compute is
  stated by lemmas about them: `PaginateResult`, `PaginateQueries` and
  `PaginateUpdates`; `TraverseEffect`; the `TraverseAll…` lemmas; and the
  run-level lemmas from `DryRunSafety` to `RunKeys`.
