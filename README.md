# bloomdb bulk upsert, modelled in Dafny

bloomdb loads large data sets into PostgreSQL. Its `Upsert` function takes a
target table, its identifier column, a column list, a stream of raw rows of
strings, and a flag saying whether revisions are tracked. It works in these
steps:

1. It renders two SQL statements from templates: the upsert and, when
   revisions are tracked, the revision update.
2. In a first transaction it creates a session-local staging table named
   after the target, bulk-copies every row into it, and commits.
3. It builds a unique index on the staging table and runs ANALYZE.
4. In a second transaction it runs the revision statement (when it is not
   empty), then the upsert statement, and commits.

Every failure returns at once. The one exception is ANALYZE's error, which
is silently dropped.

The model follows that structure, one module per concern:

- `Wrappers`: Go's `error`, and the option and result shapes.
- `TemplateFuncs`: the template helpers `eq` and `sub`, on Go's dynamic
  values and Go's `int`, taken to be 64 bits, with wrap-around.
- `Staging`: the staging-table name, and the fixed SQL texts Upsert sends.
- `RowConversion`: the NULL rule for raw columns. `ConvertRow` is the
  column loop that fills a fresh slice.
- `QueryBuilder`: `buildQuery`. The template engine is a fallible oracle
  (`Engine`). The templates themselves are not part of this model.
- `Sql`: the database as Upsert sees it. A `Database` object records every
  call on the connection, the transaction and the copy statement as a
  trace. An oracle `respond(history, call)` decides whether each call
  fails.
- `Pipeline`: the `Upsert` method and its reference semantics, described
  next.

### How `Upsert` is specified

Every call `Upsert` can make is fixed before it starts, so `Pipeline.Plan`
lists them as steps. Each step is marked fatal or not; only ANALYZE is not
fatal. `Pipeline.Run` is the reference behaviour: it issues the plan in
order and stops right after the first fatal step that fails.

The `Upsert` method makes the calls one at a time on the `Database` object,
with Go's early returns. It is proved to leave exactly the trace, error and
row count of `Run`. The lemmas then state what `Run` of the plan means:

- the order of the calls;
- the early-return discipline;
- the ANALYZE exception;
- that the revision statement runs only when its text is not empty, and
  always before the upsert;
- the row counter and the 100000-row progress milestones;
- that no call ever rolls back.

The Go function returns only its error. The model's `Upsert` also returns
the final counter value and the progress counts it logged, so that these
can be specified.

The model follows what the code does, not its comments or what a reader
might expect:

- The comment at `upsert.go:59-60` speaks of semicolons, but the code
  writes underscores.
- The staging name is not unique per table (`Staging.StagingNameNotInjective`).
- A failure rolls nothing back; the code simply returns
  (`Pipeline.NoRollback`).

A row of zero columns is copied with `stmt.Exec()` and no arguments. That
is the call that ends the bulk copy, so the trace cannot tell the two
apart (`Pipeline.EmptyRowLooksLikeCopyFinish`). What the copy library then
does is not part of this model.

## Model

| member | source | states |
|---|---|---|
| TemplateFuncs.Eq | upsert.go:15-17 | `eq` is Go's `==` on interface values. It is true exactly when the values are equal and not slices. Values of different dynamic types are unequal. Two slices panic (`None`), and only two slices do. |
| TemplateFuncs.EqSymmetric | upsert.go:15-17 | `eq(x, y)` and `eq(y, x)` agree, including on the panic. |
| TemplateFuncs.Wrap | upsert.go:18-20 | Two's-complement wrap into a 64-bit `int`: identity in range, and congruent to the exact value modulo 2^64. |
| TemplateFuncs.Sub | upsert.go:18-20 | `sub(y, x)` is `x - y`, the second argument minus the first. It is exact when there is no overflow and wraps modulo 2^64 otherwise. |
| TemplateFuncs.SubArgumentOrder | upsert.go:18-20 | When `x - y` neither overflows nor equals the smallest `int`, swapping the arguments of `sub` negates the result, so the order matters. |
| TemplateFuncs.SubSwapWraps | upsert.go:18-20 | For all arguments, swapping them gives the wrapped negation of the result. At the smallest `int` that negation is the smallest `int` itself. |
| Staging.ReplaceDots | upsert.go:61 | `strings.Replace(s, ".", "_", -1)`: same length, and every `.` becomes `_` with other characters kept. |
| Staging.StagingName | upsert.go:61 | The staging name is the table name with `.` replaced by `_`, followed by `_temp`. It is five characters longer than the table name, contains no `.`, and ends in `_temp`. |
| Staging.DotFreeNameKept | upsert.go:61 | A table name without `.` only gains the `_temp` suffix. |
| Staging.CreateTempSql | upsert.go:76 | The text `CREATE TEMP TABLE <staging>(LIKE <table>)`. |
| Staging.UniqueIndexSql | upsert.go:134 | The text `CREATE UNIQUE INDEX ON <staging>(<id column>)`. |
| Staging.AnalyzeSql | upsert.go:140 | The text `ANALYZE <staging>`. |
| Staging.StagingNameNotInjective | upsert.go:61 | `a.b` and `a_b` share the staging name `a_b_temp`. |
| RowConversion.ConvertField | upsert.go:90-94 | A column becomes NULL exactly when it is the empty string; otherwise it passes through unchanged. |
| RowConversion.ConvertedRow | upsert.go:88-95 | The converted row has the raw row's length, and each position is that column's conversion. |
| RowConversion.ConvertRow | upsert.go:88-95 | The column loop over a fresh slice computes the converted row. |
| RowConversion.ConversionRoundTrip | upsert.go:88-95 | The conversion loses nothing: reading each value back gives the raw row. |
| RowConversion.RawRowRoundTrip | upsert.go:88-95 | A row without an empty `Text` value (every converted row) is the conversion of the raw row read back from it. |
| QueryBuilder.Render | upsert.go:33-41 | Parsing a named template file, then executing it on the upsert data: a parse error is returned as is, otherwise the execution's text or error. |
| QueryBuilder.UpsertText | upsert.go:33-41 | The upsert template `upsert.sql.template` from `sql/upsert.sql.template`, rendered. |
| QueryBuilder.RevisionText | upsert.go:45-52 | The revision template `updaterevisions.sql.template` from `sql/updaterevisions.sql.template`, rendered. |
| QueryBuilder.BuildQuery | upsert.go:31-56 | The revision text is empty when revisions are off. Both texts are empty on error. It fails exactly when the upsert template, or the revision template with revisions on, fails to parse or render, with the first such error. On success it returns the rendered texts. |
| QueryBuilder.RevisionTemplateUnusedWithoutRevisions | upsert.go:43-53 | With revisions off the revision template is never consulted: engines that agree on the upsert template build identical results. |
| Sql.Database.Issue | upsert.go:71-166 | A database call is appended to the trace and answered from the calls issued before it. |
| Pipeline.Aborts | upsert.go:71-166 | The `if err != nil { return err }` test of a step: the step is one whose error ends Upsert, and its call failed. |
| Pipeline.Completed | upsert.go:71-166 | How many issued calls went through: all of them, or all but the failing last one. |
| Pipeline.RowsCopied | upsert.go:86-103 | The value of `rowsProcessed` after the first `completed` steps went through: the copy calls among them, at most the number of rows. |
| Pipeline.Run | upsert.go:58-170 | The reference run issues at most the whole plan. It issues all of it when it returns no error, and otherwise stops at a fatal step. |
| Pipeline.RunFollowsPlan | upsert.go:71-166 | The calls issued are the plan's first calls, in order. |
| Pipeline.CompletedStepsDidNotAbort | upsert.go:71-166 | Every step before the stopping one went through or was not fatal. |
| Pipeline.FailedRunEndsWithAbort | upsert.go:71-166 | A failed run ends with a fatal step that failed, and returns that step's error. |
| Pipeline.RunStopsAtFirstAbort | upsert.go:71-166 | The early-return discipline: the three lemmas above together. |
| Pipeline.FirstAbortIsLast | upsert.go:71-166 | Once a fatal step fails, nothing after it is issued and its error is returned. |
| Pipeline.Plan | upsert.go:71-166 | Every call Upsert can make, in order: the setup, one copy per row, the copy finish, the index and ANALYZE, and the merge transaction. |
| Pipeline.SetupSteps | upsert.go:71-84 | Begin, CREATE TEMP TABLE and the COPY prepare, each of whose errors ends Upsert. |
| Pipeline.FinishLoadSteps | upsert.go:110-125 | The argument-less Exec that finishes COPY, Close and Commit, each of whose errors ends Upsert. |
| Pipeline.PrepareSteps | upsert.go:134-140 | The unique index, whose error ends Upsert, then ANALYZE, whose error does not. |
| Pipeline.MergeSteps | upsert.go:142-166 | Begin, the revision statement only when its text is not empty, the upsert and Commit, each of whose errors ends Upsert. |
| Pipeline.Milestones | upsert.go:103-107 | The counts logged as the counter goes from 0 up to a count: each one that is a multiple of 100000. |
| Pipeline.CopySteps | upsert.go:87-101 | One copy call per row, in stream order, carrying the converted row. |
| Pipeline.Commands | upsert.go:58-170 | The calls of a list of steps, position by position. |
| Pipeline.LoadLayout | upsert.go:71-122 | The load transaction's calls in order: Begin, CREATE TEMP TABLE, prepare COPY, row k at position 3 + k, then the copy finish, Close and Commit. |
| Pipeline.PrepareMergeLayout | upsert.go:134-166 | Order of the rest: the index, ANALYZE and Begin; then the revision statement only when its text is not empty; then the upsert and Commit. |
| Pipeline.PlanFatality | upsert.go:71-167 | ANALYZE is the only step whose error is ignored, and no step is a rollback. |
| Pipeline.MilestonesExact | upsert.go:103-107 | A progress count is logged exactly at each positive multiple of 100000 up to the count, in increasing order. |
| Pipeline.AnalyzeNeverAborts | upsert.go:139-142 | Once ANALYZE is issued, the second transaction is begun, whatever ANALYZE returned. |
| Pipeline.FailureStopsUpsert | upsert.go:71-166 | The first failing call other than ANALYZE is the last call issued, and its error is the one returned. |
| Pipeline.IndexFailureStopsMerge | upsert.go:134-137 | A failed unique index returns its error and issues nothing more: no second Begin, no revision and no upsert statement. |
| Pipeline.RevisionPrecedesUpsert | upsert.go:147-161 | With a non-empty revision text, the upsert runs only right after that statement succeeded. With an empty one, the upsert directly follows the second Begin. |
| Pipeline.SuccessIssuesWholePlan | upsert.go:133-169 | A run without error issues the whole plan. Its trace ends with the index, ANALYZE, Begin, the revision statement if any, the upsert and Commit. |
| Pipeline.PlanEndsWithMerge | upsert.go:134-167 | The plan's calls from the index build on are exactly that ending. |
| Pipeline.PrepareMergeCommands | upsert.go:134-167 | The index, ANALYZE and merge steps issue exactly that ending. |
| Pipeline.NoRollback | upsert.go:58-170 | No run of Upsert ever issues a rollback, whatever fails. |
| Pipeline.RowsProcessedCountsCopies | upsert.go:86-108 | The row counter counts exactly the rows whose copy call succeeded: the first rows of the stream, copied with their converted values. A shorter count means the run failed at or before the copy of the next row; a run without error copied all rows; with no rows the count is 0. |
| Pipeline.CopiesCounted | upsert.go:86-108 | The same count for any plan that copies the rows from position 3. |
| Pipeline.EmptyRowLooksLikeCopyFinish | upsert.go:97-110 | The copy call of a zero-column row equals the call that ends the copy. |
| Pipeline.IssueNext | upsert.go:71-166 | One checked call: on a fatal failure the run has ended as the reference run; otherwise the reference run resumes at the next step. |
| Pipeline.OpenCopy | upsert.go:71-84 | Begin, CREATE TEMP TABLE and prepare copy, with an early return on each error, as the reference run. |
| Pipeline.CopyRow | upsert.go:88-101 | One row is converted and copied as the reference run's next step. |
| Pipeline.CountRow | upsert.go:103-107 | The counter goes up by one, and the count is logged exactly when it is a multiple of 100000. |
| Pipeline.CopyRows | upsert.go:86-108 | The row loop follows the reference run. The counter is the number of rows copied and the log holds the milestones. On error it stops at the failing row with the counter below the stream length. |
| Pipeline.FinishCopy | upsert.go:110-125 | Copy finish, Close and Commit, with an early return on each error, as the reference run. |
| Pipeline.LoadStaging | upsert.go:71-125 | The load transaction follows the reference run. A failure leaves the counter at the number of rows copied. |
| Pipeline.PrepareStaging | upsert.go:133-140 | The index, whose error returns, then ANALYZE, whose error is dropped. |
| Pipeline.MergeStaging | upsert.go:142-169 | The second transaction follows the reference run: Begin, the revision statement only when its text is not empty, the upsert and Commit. |
| Pipeline.Upsert | upsert.go:58-170 | If `buildQuery` fails, Upsert returns its error and issues no call. Otherwise the calls issued and the error returned are those of the reference run of the plan, and the counter is the number of rows copied. The logged counts are the milestones of the counter. |

## Left out

- The SQL text of the upsert and revision statements. The templates
  `sql/upsert.sql.template` and `sql/updaterevisions.sql.template` are not
  part of this model, so rendering is the oracle `Engine`. What the
  statements do to table contents is not modelled.
- The PostgreSQL COPY protocol, `lib/pq`'s `CopyIn`, and the
  `database/sql` connection pool. Each call's outcome is the oracle
  `respond`. Whether the session-local staging table is visible to later
  `db.Exec` calls on other pool connections is not modelled.
- The concurrency of the `rows` channel and its producer. The stream is a
  finite sequence consumed in order. Leaving the channel undrained after an
  early return is not modelled.
- Wall-clock time and log text. `time.Now` and the elapsed-time log with
  its minutes and seconds split are advisory output only. The start, step
  and done messages and the failing row printed at `upsert.go:99` are also
  left out. Only the progress counts are kept.
- `RowsAffected` of the revision statement, which is only logged.
- Pipeline.CountRow: the counter is an unbounded `nat`. A 64-bit Go `int`
  would wrap only after 2^63 rows.
- TemplateFuncs.Sub: Go's `int` is taken to be 64 bits. 32-bit builds,
  where `sub` and the row counter wrap modulo 2^32, are not modelled.
- TemplateFuncs.Eq: covers the dynamic types a template hands it here
  (ints, strings, booleans, string slices). Other Go types, and distinct
  integer kinds such as `int` and `int64`, are not modelled.
- TemplateFuncs.Sub: the template engine's conversion of its arguments to
  `int`, and its error when that fails, are not modelled.
- Pipeline.Upsert: the single Go function is split into phase methods
  (`LoadStaging`, `PrepareStaging`, `MergeStaging`) that issue the same
  calls in the same order.
