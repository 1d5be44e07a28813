/** `Upsert`: load the rows into a staging table in one transaction, index and
    analyze it, then apply the revision and upsert statements in a second
    transaction.

    Every call Upsert can make is known before it starts: the PLAN below, a
    sequence of steps. `Run` is the reference behaviour: it issues the plan in
    order and stops right after the first step that fails, unless that step is
    one whose error is ignored (ANALYZE). `Upsert` is proved to behave as
    `Run(Plan(...))`, and the lemmas state what that means. */
module Pipeline {
  import opened Wrappers
  import opened Staging
  import opened RowConversion
  import opened QueryBuilder
  import opened Sql

  const PROGRESS_INTERVAL: nat := 100000

  /** A planned call; `fatal` says whether its error ends Upsert. */
  datatype Step = Step(cmd: Command, fatal: bool)

  /** The calls a run issued and the error it returned. */
  datatype RunResult = RunResult(issued: seq<Command>, err: Option<Error>)

  /** The step's call fails and the failure ends the run. */
  predicate Aborts(respond: Responder, history: seq<Command>, s: Step) {
    s.fatal && respond(history, s.cmd).Some?
  }

  /** Issue the steps in order after `history`; stop after the first that aborts. */
  function Run(respond: Responder, history: seq<Command>, plan: seq<Step>): (r: RunResult)
    ensures |r.issued| <= |plan|
    ensures r.err.None? ==> |r.issued| == |plan|
    ensures r.err.Some? ==> 0 < |r.issued| && plan[|r.issued| - 1].fatal
    decreases |plan|
  {
    if plan == [] then RunResult([], None)
    else
      var s := plan[0];
      if Aborts(respond, history, s) then RunResult([s.cmd], respond(history, s.cmd))
      else
        var rest := Run(respond, history + [s.cmd], plan[1..]);
        RunResult([s.cmd] + rest.issued, rest.err)
  }

  /** The calls a run issues are the first calls of its plan, in order. */
  lemma {:induction false} RunFollowsPlan(respond: Responder, history: seq<Command>, plan: seq<Step>)
    ensures var r := Run(respond, history, plan);
      forall i :: 0 <= i < |r.issued| ==> r.issued[i] == plan[i].cmd
    decreases |plan|
  {
    if plan != [] && !Aborts(respond, history, plan[0]) {
      RunFollowsPlan(respond, history + [plan[0].cmd], plan[1..]);
    }
  }

  /** How many issued steps did not abort (all but the last one, on failure). */
  function Completed(r: RunResult): nat {
    if r.err.Some? && r.issued != [] then |r.issued| - 1 else |r.issued|
  }

  /** Moving the first issued call into the history. */
  lemma ShiftHistory(history: seq<Command>, c: Command, later: seq<Command>, i: nat)
    requires 1 <= i <= |later| + 1
    ensures history + ([c] + later)[..i] == (history + [c]) + later[..i - 1]
  {
    assert ([c] + later)[..i] == [c] + later[..i - 1];
  }

  /** Every step before the stop went through. */
  lemma {:induction false} CompletedStepsDidNotAbort(respond: Responder, history: seq<Command>, plan: seq<Step>)
    ensures var r := Run(respond, history, plan);
      forall i :: 0 <= i < Completed(r) ==> !Aborts(respond, history + r.issued[..i], plan[i])
    decreases |plan|
  {
    if plan != [] && !Aborts(respond, history, plan[0]) {
      var r := Run(respond, history, plan);
      var h' := history + [plan[0].cmd];
      var rest := Run(respond, h', plan[1..]);
      CompletedStepsDidNotAbort(respond, h', plan[1..]);
      assert Completed(r) == 1 + Completed(rest);
      forall i | 0 <= i < Completed(r)
        ensures !Aborts(respond, history + r.issued[..i], plan[i])
      {
        if i == 0 {
          assert history + r.issued[..0] == history;
        } else {
          ShiftHistory(history, plan[0].cmd, rest.issued, i);
          assert plan[i] == plan[1..][i - 1];
        }
      }
    }
  }

  /** A failed run ends with the step that aborted and returns its error. */
  lemma {:induction false} FailedRunEndsWithAbort(respond: Responder, history: seq<Command>, plan: seq<Step>)
    ensures var r := Run(respond, history, plan);
      r.err.Some? ==>
        var last := |r.issued| - 1;
        Aborts(respond, history + r.issued[..last], plan[last])
        && r.err == respond(history + r.issued[..last], plan[last].cmd)
    decreases |plan|
  {
    if plan != [] {
      var r := Run(respond, history, plan);
      if Aborts(respond, history, plan[0]) {
        assert history + r.issued[..0] == history;
      } else if r.err.Some? {
        var h' := history + [plan[0].cmd];
        var rest := Run(respond, h', plan[1..]);
        FailedRunEndsWithAbort(respond, h', plan[1..]);
        var last := |r.issued| - 1;
        ShiftHistory(history, plan[0].cmd, rest.issued, last);
        assert plan[last] == plan[1..][last - 1];
      }
    }
  }

  /** The early-return discipline: the calls issued are the plan's first
      ones, every step before the stop went through, and a failed run ends
      with the step that aborted, returning its error. */
  lemma RunStopsAtFirstAbort(respond: Responder, history: seq<Command>, plan: seq<Step>)
    ensures var r := Run(respond, history, plan);
      && (forall i :: 0 <= i < |r.issued| ==> r.issued[i] == plan[i].cmd)
      && (forall i :: 0 <= i < Completed(r) ==> !Aborts(respond, history + r.issued[..i], plan[i]))
      && (r.err.Some? ==>
            var last := |r.issued| - 1;
            Aborts(respond, history + r.issued[..last], plan[last])
            && r.err == respond(history + r.issued[..last], plan[last].cmd))
  {
    RunFollowsPlan(respond, history, plan);
    CompletedStepsDidNotAbort(respond, history, plan);
    FailedRunEndsWithAbort(respond, history, plan);
  }

  /** Once a step aborts, nothing after it is issued. */
  lemma FirstAbortIsLast(respond: Responder, history: seq<Command>, plan: seq<Step>, j: nat)
    requires var r := Run(respond, history, plan);
      j < |r.issued| && Aborts(respond, history + r.issued[..j], plan[j])
    ensures var r := Run(respond, history, plan);
      |r.issued| == j + 1 && r.err == respond(history + r.issued[..j], plan[j].cmd)
  {
    RunStopsAtFirstAbort(respond, history, plan);
  }

  // ---------------------------------------------------------------- the plan

  /** Staging loader, first half: open the load transaction, create the
      staging table, prepare the bulk copy. */
  function SetupSteps(tempTable: string, table: string, columns: seq<string>): seq<Step> {
    [Step(Begin, true), Step(TxnExec(CreateTempSql(tempTable, table)), true),
     Step(PrepareCopyIn(tempTable, columns), true)]
  }

  /** One copy call per row, in stream order. */
  function CopySteps(rows: seq<seq<string>>): (steps: seq<Step>)
    ensures |steps| == |rows|
    ensures forall k :: 0 <= k < |rows| ==> steps[k] == Step(StmtExec(ConvertedRow(rows[k])), true)
  {
    if rows == [] then [] else [Step(StmtExec(ConvertedRow(rows[0])), true)] + CopySteps(rows[1..])
  }

  /** Staging loader, second half: finish the copy, close the statement, commit. */
  function FinishLoadSteps(): seq<Step> {
    [Step(StmtExec([]), true), Step(StmtClose, true), Step(Commit, true)]
  }

  /** Index/statistics preparation; ANALYZE's error is ignored. */
  function PrepareSteps(tempTable: string, idColumn: string): seq<Step> {
    [Step(DbExec(UniqueIndexSql(tempTable, idColumn)), true), Step(DbExec(AnalyzeSql(tempTable)), false)]
  }

  /** The merge transaction; the revision statement only when it is not empty. */
  function MergeSteps(query: string, revisionQuery: string): seq<Step> {
    [Step(Begin, true)]
      + (if revisionQuery != "" then [Step(TxnExec(revisionQuery), true)] else [])
      + [Step(TxnExec(query), true), Step(Commit, true)]
  }

  function Plan(tempTable: string, table: string, idColumn: string, columns: seq<string>,
                rows: seq<seq<string>>, query: string, revisionQuery: string): seq<Step>
  {
    SetupSteps(tempTable, table, columns) + CopySteps(rows) + FinishLoadSteps()
      + PrepareSteps(tempTable, idColumn) + MergeSteps(query, revisionQuery)
  }

  function Commands(steps: seq<Step>): (cmds: seq<Command>)
    ensures |cmds| == |steps|
    ensures forall i :: 0 <= i < |steps| ==> cmds[i] == steps[i].cmd
  {
    if steps == [] then [] else [steps[0].cmd] + Commands(steps[1..])
  }

  /** The load transaction's calls in `plan`, for a stream of `rows`: the
      setup at 0 to 2, row k at 3 + k, then the copy finish, the close and
      the commit. */
  ghost predicate LoadsRows(plan: seq<Step>, tempTable: string, table: string, columns: seq<string>,
                            rows: seq<seq<string>>)
  {
    var n := |rows|;
    && |plan| > 5 + n
    && plan[0] == Step(Begin, true)
    && plan[1] == Step(TxnExec(CreateTempSql(tempTable, table)), true)
    && plan[2] == Step(PrepareCopyIn(tempTable, columns), true)
    && (forall k :: 0 <= k < n ==> plan[3 + k] == Step(StmtExec(ConvertedRow(rows[k])), true))
    && plan[3 + n] == Step(StmtExec([]), true)
    && plan[4 + n] == Step(StmtClose, true)
    && plan[5 + n] == Step(Commit, true)
  }

  lemma LoadLayout(tempTable: string, table: string, idColumn: string, columns: seq<string>,
                   rows: seq<seq<string>>, query: string, revisionQuery: string)
    ensures var plan := Plan(tempTable, table, idColumn, columns, rows, query, revisionQuery);
      && |plan| == 11 + |rows| + (if revisionQuery != "" then 1 else 0)
      && LoadsRows(plan, tempTable, table, columns, rows)
  {

  }

  /** Where the index, ANALYZE and the merge transaction sit: the index at
      6 + n, ANALYZE at 7 + n, then the merge steps from the second begin at
      8 + n, with the revision statement at 9 + n when it is not empty. */
  lemma PrepareMergeLayout(tempTable: string, table: string, idColumn: string, columns: seq<string>,
                           rows: seq<seq<string>>, query: string, revisionQuery: string)
    ensures var plan := Plan(tempTable, table, idColumn, columns, rows, query, revisionQuery);
      var n, rv := |rows|, if revisionQuery != "" then 1 else 0;
      && |plan| == 11 + n + rv
      && plan[6 + n] == Step(DbExec(UniqueIndexSql(tempTable, idColumn)), true)
      && plan[7 + n] == Step(DbExec(AnalyzeSql(tempTable)), false)
      && plan[8 + n..] == MergeSteps(query, revisionQuery)
      && plan[8 + n] == Step(Begin, true)
      && (revisionQuery != "" ==> plan[9 + n] == Step(TxnExec(revisionQuery), true))
      && plan[9 + n + rv] == Step(TxnExec(query), true)
      && plan[10 + n + rv] == Step(Commit, true)
  {

  }

  /** ANALYZE is the only step whose error is ignored, and no step rolls back. */
  lemma PlanFatality(tempTable: string, table: string, idColumn: string, columns: seq<string>,
                     rows: seq<seq<string>>, query: string, revisionQuery: string)
    ensures var plan := Plan(tempTable, table, idColumn, columns, rows, query, revisionQuery);
      && (forall i :: 0 <= i < |plan| ==> (!plan[i].fatal <==> i == 7 + |rows|))
      && (forall i :: 0 <= i < |plan| ==> plan[i].cmd != Rollback)
  {

  }

  /** The number of rows whose copy call went through, when the first
      `completed` steps of the plan went through. */
  function RowsCopied(completed: nat, n: nat): nat {
    if completed <= 3 then 0 else if completed - 3 <= n then completed - 3 else n
  }

  /** The progress counts logged for `n` copied rows: one per positive
      multiple of the interval, as the counter passes it. */
  function Milestones(n: nat): seq<nat> {
    if n == 0 then []
    else Milestones(n - 1) + (if n % PROGRESS_INTERVAL == 0 then [n] else [])
  }

  lemma {:induction false} MilestonesExact(n: nat)
    ensures forall m :: m in Milestones(n) <==> 0 < m <= n && m % PROGRESS_INTERVAL == 0
    ensures forall i, j :: 0 <= i < j < |Milestones(n)| ==> Milestones(n)[i] < Milestones(n)[j]
  {
    if n > 0 {
      MilestonesExact(n - 1);
      var prev := Milestones(n - 1);
      forall i, j | 0 <= i < j < |Milestones(n)|
        ensures Milestones(n)[i] < Milestones(n)[j]
      {
        if j >= |prev| {
          assert Milestones(n)[j] == n;
          assert Milestones(n)[i] == prev[i] && prev[i] in prev;
        }
      }
    }
  }

  // ------------------------------------------------------- facts about a run

  /** ANALYZE never ends the pipeline: once it is issued, the second
      transaction is begun, whatever ANALYZE returned. */
  lemma AnalyzeNeverAborts(respond: Responder, history: seq<Command>, tempTable: string, table: string,
                           idColumn: string, columns: seq<string>, rows: seq<seq<string>>,
                           query: string, revisionQuery: string)
    ensures var r := Run(respond, history, Plan(tempTable, table, idColumn, columns, rows, query, revisionQuery));
      |r.issued| > 7 + |rows| ==> |r.issued| > 8 + |rows| && r.issued[8 + |rows|] == Begin
  {
    PrepareMergeLayout(tempTable, table, idColumn, columns, rows, query, revisionQuery);
    RunFollowsPlan(respond, history, Plan(tempTable, table, idColumn, columns, rows, query, revisionQuery));
  }

  /** Every call but ANALYZE is checked: the first one that fails, whichever
      it is, is the last call issued and its error is the one returned. */
  lemma FailureStopsUpsert(respond: Responder, history: seq<Command>, tempTable: string, table: string,
                           idColumn: string, columns: seq<string>, rows: seq<seq<string>>,
                           query: string, revisionQuery: string, j: nat)
    requires var r := Run(respond, history, Plan(tempTable, table, idColumn, columns, rows, query, revisionQuery));
      j < |r.issued| && j != 7 + |rows| && respond(history + r.issued[..j], r.issued[j]).Some?
    ensures var r := Run(respond, history, Plan(tempTable, table, idColumn, columns, rows, query, revisionQuery));
      |r.issued| == j + 1 && r.err == respond(history + r.issued[..j], r.issued[j])
  {
    var plan := Plan(tempTable, table, idColumn, columns, rows, query, revisionQuery);
    PlanFatality(tempTable, table, idColumn, columns, rows, query, revisionQuery);
    RunFollowsPlan(respond, history, plan);
    FirstAbortIsLast(respond, history, plan, j);
  }

  /** A failed unique-index build (the stream held a duplicate identifier)
      returns that error and issues nothing more: the second transaction is
      never begun, so neither the revision nor the upsert statement runs. */
  lemma IndexFailureStopsMerge(respond: Responder, history: seq<Command>, tempTable: string, table: string,
                               idColumn: string, columns: seq<string>, rows: seq<seq<string>>,
                               query: string, revisionQuery: string)
    requires var r := Run(respond, history, Plan(tempTable, table, idColumn, columns, rows, query, revisionQuery));
      |r.issued| > 6 + |rows|
      && respond(history + r.issued[..6 + |rows|], DbExec(UniqueIndexSql(tempTable, idColumn))).Some?
    ensures var r := Run(respond, history, Plan(tempTable, table, idColumn, columns, rows, query, revisionQuery));
      && |r.issued| == 7 + |rows|
      && r.issued[6 + |rows|] == DbExec(UniqueIndexSql(tempTable, idColumn))
      && r.err == respond(history + r.issued[..6 + |rows|], DbExec(UniqueIndexSql(tempTable, idColumn)))
  {
    var plan := Plan(tempTable, table, idColumn, columns, rows, query, revisionQuery);
    PrepareMergeLayout(tempTable, table, idColumn, columns, rows, query, revisionQuery);
    RunFollowsPlan(respond, history, plan);
    FirstAbortIsLast(respond, history, plan, 6 + |rows|);
  }

  /** The upsert runs only after the revision statement, when there is one,
      has been issued immediately before it and succeeded; without one the
      upsert directly follows the second begin. */
  lemma RevisionPrecedesUpsert(respond: Responder, history: seq<Command>, tempTable: string, table: string,
                               idColumn: string, columns: seq<string>, rows: seq<seq<string>>,
                               query: string, revisionQuery: string)
    ensures var r := Run(respond, history, Plan(tempTable, table, idColumn, columns, rows, query, revisionQuery));
      var n := |rows|;
      && (revisionQuery != "" && |r.issued| > 10 + n ==>
            && r.issued[9 + n] == TxnExec(revisionQuery)
            && r.issued[10 + n] == TxnExec(query)
            && respond(history + r.issued[..9 + n], TxnExec(revisionQuery)).None?)
      && (revisionQuery == "" && |r.issued| > 9 + n ==> r.issued[9 + n] == TxnExec(query))
  {
    var plan := Plan(tempTable, table, idColumn, columns, rows, query, revisionQuery);
    PrepareMergeLayout(tempTable, table, idColumn, columns, rows, query, revisionQuery);
    RunStopsAtFirstAbort(respond, history, plan);
  }

  /** A run without error issues the whole plan; its trace ends with the
      index, ANALYZE, the second begin, the revision statement if any, the
      upsert and the commit. */
  lemma SuccessIssuesWholePlan(respond: Responder, history: seq<Command>, tempTable: string, table: string,
                               idColumn: string, columns: seq<string>, rows: seq<seq<string>>,
                               query: string, revisionQuery: string)
    ensures var r := Run(respond, history, Plan(tempTable, table, idColumn, columns, rows, query, revisionQuery));
      r.err.None? ==>
        && r.issued == Commands(Plan(tempTable, table, idColumn, columns, rows, query, revisionQuery))
        && r.issued[6 + |rows|..]
           == [DbExec(UniqueIndexSql(tempTable, idColumn)), DbExec(AnalyzeSql(tempTable)), Begin]
              + (if revisionQuery != "" then [TxnExec(revisionQuery)] else [])
              + [TxnExec(query), Commit]
  {
    var plan := Plan(tempTable, table, idColumn, columns, rows, query, revisionQuery);
    var r := Run(respond, history, plan);
    if r.err.None? {
      RunFollowsPlan(respond, history, plan);
      assert r.issued == Commands(plan);
      PlanEndsWithMerge(tempTable, table, idColumn, columns, rows, query, revisionQuery);
    }
  }

  /** The calls of the plan from the index build on. */
  lemma PlanEndsWithMerge(tempTable: string, table: string, idColumn: string, columns: seq<string>,
                          rows: seq<seq<string>>, query: string, revisionQuery: string)
    ensures Commands(Plan(tempTable, table, idColumn, columns, rows, query, revisionQuery))[6 + |rows|..]
         == [DbExec(UniqueIndexSql(tempTable, idColumn)), DbExec(AnalyzeSql(tempTable)), Begin]
            + (if revisionQuery != "" then [TxnExec(revisionQuery)] else [])
            + [TxnExec(query), Commit]
  {
    CommandsAfter(SetupSteps(tempTable, table, columns) + CopySteps(rows) + FinishLoadSteps(),
                  PrepareSteps(tempTable, idColumn) + MergeSteps(query, revisionQuery));
    PrepareMergeCommands(tempTable, idColumn, query, revisionQuery);
  }

  lemma PrepareMergeCommands(tempTable: string, idColumn: string, query: string, revisionQuery: string)
    ensures Commands(PrepareSteps(tempTable, idColumn) + MergeSteps(query, revisionQuery))
         == [DbExec(UniqueIndexSql(tempTable, idColumn)), DbExec(AnalyzeSql(tempTable)), Begin]
            + (if revisionQuery != "" then [TxnExec(revisionQuery)] else [])
            + [TxnExec(query), Commit]
  {

  }

  /** The calls of the steps after a prefix. */
  lemma CommandsAfter(head: seq<Step>, tail: seq<Step>)
    ensures Commands(head + tail)[|head|..] == Commands(tail)
  {

  }

  lemma CommandsAppend(a: seq<Step>, b: seq<Step>)
    ensures Commands(a + b) == Commands(a) + Commands(b)
  {

  }

  /** Upsert never rolls a transaction back, whatever fails. */
  lemma NoRollback(respond: Responder, history: seq<Command>, tempTable: string, table: string,
                   idColumn: string, columns: seq<string>, rows: seq<seq<string>>,
                   query: string, revisionQuery: string)
    ensures Rollback !in Run(respond, history, Plan(tempTable, table, idColumn, columns, rows, query, revisionQuery)).issued
  {
    PlanFatality(tempTable, table, idColumn, columns, rows, query, revisionQuery);
    RunFollowsPlan(respond, history, Plan(tempTable, table, idColumn, columns, rows, query, revisionQuery));
  }

  /** The row counter counts exactly the rows whose copy call succeeded: they
      are the first ones of the stream, each copied with its converted
      values; a shorter count means the run failed at or before the copy of
      the next row; and a run without error copied every row. */
  lemma RowsProcessedCountsCopies(respond: Responder, history: seq<Command>, tempTable: string, table: string,
                                  idColumn: string, columns: seq<string>, rows: seq<seq<string>>,
                                  query: string, revisionQuery: string)
    ensures var r := Run(respond, history, Plan(tempTable, table, idColumn, columns, rows, query, revisionQuery));
      var c := RowsCopied(Completed(r), |rows|);
      && c <= |rows|
      && (forall k :: 0 <= k < c ==>
            r.issued[3 + k] == StmtExec(ConvertedRow(rows[k]))
            && respond(history + r.issued[..3 + k], StmtExec(ConvertedRow(rows[k]))).None?)
      && (c < |rows| ==> r.err.Some? && |r.issued| <= 4 + c)
      && (r.err.None? ==> c == |rows|)
  {
    LoadLayout(tempTable, table, idColumn, columns, rows, query, revisionQuery);
    CopiesCounted(respond, history, Plan(tempTable, table, idColumn, columns, rows, query, revisionQuery), rows);
  }

  /** The row count of a run of any plan that copies `rows` from index 3. */
  lemma CopiesCounted(respond: Responder, history: seq<Command>, plan: seq<Step>, rows: seq<seq<string>>)
    requires |plan| > 3 + |rows|
    requires forall k :: 0 <= k < |rows| ==> plan[3 + k] == Step(StmtExec(ConvertedRow(rows[k])), true)
    ensures var r := Run(respond, history, plan);
      var c := RowsCopied(Completed(r), |rows|);
      && c <= |rows|
      && (forall k :: 0 <= k < c ==>
            r.issued[3 + k] == StmtExec(ConvertedRow(rows[k]))
            && respond(history + r.issued[..3 + k], StmtExec(ConvertedRow(rows[k]))).None?)
      && (c < |rows| ==> r.err.Some? && |r.issued| <= 4 + c)
      && (r.err.None? ==> c == |rows|)
  {
    var r := Run(respond, history, plan);
    var c := RowsCopied(Completed(r), |rows|);
    forall k | 0 <= k < c
      ensures r.issued[3 + k] == StmtExec(ConvertedRow(rows[k]))
      ensures respond(history + r.issued[..3 + k], StmtExec(ConvertedRow(rows[k]))).None?
    {
      RunFollowsPlan(respond, history, plan);
      CompletedStepsDidNotAbort(respond, history, plan);
      assert !Aborts(respond, history + r.issued[..3 + k], plan[3 + k]);
    }
  }

  /** An empty raw row is copied with no values, which is the very call that
      finishes the copy. */
  lemma EmptyRowLooksLikeCopyFinish(tempTable: string, table: string, idColumn: string, columns: seq<string>,
                                    rows: seq<seq<string>>, query: string, revisionQuery: string, k: nat)
    requires k < |rows| && rows[k] == []
    ensures var plan := Plan(tempTable, table, idColumn, columns, rows, query, revisionQuery);
      plan[3 + k].cmd == plan[3 + |rows|].cmd
  {
    LoadLayout(tempTable, table, idColumn, columns, rows, query, revisionQuery);
  }

  // ------------------------------------------------------------- the method

  /** Issuing the planned calls from `plan[k]` on after `trace` ends where the
      reference run ends, with the same error. */
  ghost predicate Resumes(respond: Responder, trace: seq<Command>, plan: seq<Step>, k: nat,
                          final: seq<Command>, err: Option<Error>)
  {
    k <= |plan| &&
    var r := Run(respond, trace, plan[k..]);
    trace + r.issued == final && r.err == err
  }

  /** One step of the reference run. */
  lemma Advance(respond: Responder, trace: seq<Command>, plan: seq<Step>, k: nat,
                final: seq<Command>, err: Option<Error>)
    requires k < |plan| && Resumes(respond, trace, plan, k, final, err)
    ensures Aborts(respond, trace, plan[k]) ==>
      trace + [plan[k].cmd] == final && respond(trace, plan[k].cmd) == err
    ensures !Aborts(respond, trace, plan[k]) ==>
      Resumes(respond, trace + [plan[k].cmd], plan, k + 1, final, err)
  {

  }

  /** Issues the planned call `plan[k]`. */
  method IssueNext(db: Database, c: Command, ghost plan: seq<Step>, ghost k: nat,
                   ghost final: seq<Command>, ghost err: Option<Error>)
    returns (e: Option<Error>)
    requires k < |plan| && plan[k].cmd == c
    requires Resumes(db.respond, db.trace, plan, k, final, err)
    modifies db
    ensures |db.trace| == old(|db.trace|) + 1
    ensures e.Some? && plan[k].fatal ==> db.trace == final && e == err
    ensures !(e.Some? && plan[k].fatal) ==> Resumes(db.respond, db.trace, plan, k + 1, final, err)
  {
    Advance(db.respond, db.trace, plan, k, final, err);
    e := db.Issue(c);
  }

  /** The load transaction's begin, creating the staging table and preparing
      COPY into it. */
  method OpenCopy(db: Database, tempTable: string, table: string, columns: seq<string>,
                  ghost plan: seq<Step>, ghost final: seq<Command>, ghost err: Option<Error>)
    returns (e: Option<Error>)
    requires 3 <= |plan|
    requires plan[0] == Step(Begin, true)
    requires plan[1] == Step(TxnExec(CreateTempSql(tempTable, table)), true)
    requires plan[2] == Step(PrepareCopyIn(tempTable, columns), true)
    requires Resumes(db.respond, db.trace, plan, 0, final, err)
    modifies db
    ensures e.Some? ==> db.trace == final && e == err && old(|db.trace|) < |db.trace| <= old(|db.trace|) + 3
    ensures e.None? ==> Resumes(db.respond, db.trace, plan, 3, final, err) && |db.trace| == old(|db.trace|) + 3
  {
    e := IssueNext(db, Begin, plan, 0, final, err);
    if e.Some? { return; }
    e := IssueNext(db, TxnExec(CreateTempSql(tempTable, table)), plan, 1, final, err);
    if e.Some? { return; }
    e := IssueNext(db, PrepareCopyIn(tempTable, columns), plan, 2, final, err);
  }

  /** One row of the stream: converted, then copied. */
  method CopyRow(db: Database, rawRow: seq<string>, ghost plan: seq<Step>, ghost k: nat,
                 ghost final: seq<Command>, ghost err: Option<Error>)
    returns (e: Option<Error>)
    requires k < |plan| && plan[k] == Step(StmtExec(ConvertedRow(rawRow)), true)
    requires Resumes(db.respond, db.trace, plan, k, final, err)
    modifies db
    ensures |db.trace| == old(|db.trace|) + 1
    ensures e.Some? ==> db.trace == final && e == err
    ensures e.None? ==> Resumes(db.respond, db.trace, plan, k + 1, final, err)
  {
    var row := ConvertRow(rawRow);
    e := IssueNext(db, StmtExec(row), plan, k, final, err);
  }

  /** The `for range rows` loop: each raw row is converted and copied; the
      counter counts the copies that succeeded and a progress line is logged
      at every positive multiple of the interval. */
  method CopyRows(db: Database, rows: seq<seq<string>>, ghost plan: seq<Step>, ghost final: seq<Command>,
                  ghost err: Option<Error>)
    returns (e: Option<Error>, rowsProcessed: nat, progress: seq<nat>)
    requires |plan| >= 3 + |rows|
    requires forall k :: 0 <= k < |rows| ==> plan[3 + k] == Step(StmtExec(ConvertedRow(rows[k])), true)
    requires Resumes(db.respond, db.trace, plan, 3, final, err)
    modifies db
    ensures progress == Milestones(rowsProcessed)
    ensures e.Some? ==>
      && db.trace == final && e == err
      && rowsProcessed < |rows| && |db.trace| == old(|db.trace|) + rowsProcessed + 1
    ensures e.None? ==>
      && Resumes(db.respond, db.trace, plan, 3 + |rows|, final, err)
      && |db.trace| == old(|db.trace|) + |rows| && rowsProcessed == |rows|
  {
    rowsProcessed, progress := 0, [];
    e := None;
    for i := 0 to |rows|
      invariant e.None? && Resumes(db.respond, db.trace, plan, 3 + i, final, err)
      invariant |db.trace| == old(|db.trace|) + i
      invariant rowsProcessed == i && progress == Milestones(i)
    {
      e := CopyRow(db, rows[i], plan, 3 + i, final, err);
      if e.Some? { return; }
      rowsProcessed, progress := CountRow(rowsProcessed, progress);
    }
  }

  /** Counting one more copied row, and logging progress when the count
      reaches a multiple of the interval. */
  method CountRow(rowsProcessed: nat, progress: seq<nat>) returns (count: nat, logged: seq<nat>)
    requires progress == Milestones(rowsProcessed)
    ensures count == rowsProcessed + 1 && logged == Milestones(count)
    ensures count % PROGRESS_INTERVAL == 0 ==> logged == progress + [count]
    ensures count % PROGRESS_INTERVAL != 0 ==> logged == progress
  {
    count, logged := rowsProcessed + 1, progress;
    if count % PROGRESS_INTERVAL == 0 {
      logged := logged + [count];
    }
  }

  /** The three calls that end the load: the argument-less Exec that
      flushes COPY, closing the statement, and the load transaction's
      commit. */
  method FinishCopy(db: Database, ghost plan: seq<Step>, ghost k: nat, ghost final: seq<Command>,
                    ghost err: Option<Error>)
    returns (e: Option<Error>)
    requires k + 3 <= |plan|
    requires plan[k] == Step(StmtExec([]), true)
    requires plan[k + 1] == Step(StmtClose, true)
    requires plan[k + 2] == Step(Commit, true)
    requires Resumes(db.respond, db.trace, plan, k, final, err)
    modifies db
    ensures e.Some? ==> db.trace == final && e == err && old(|db.trace|) < |db.trace| <= old(|db.trace|) + 3
    ensures e.None? ==> Resumes(db.respond, db.trace, plan, k + 3, final, err) && |db.trace| == old(|db.trace|) + 3
  {
    e := IssueNext(db, StmtExec([]), plan, k, final, err);
    if e.Some? { return; }
    e := IssueNext(db, StmtClose, plan, k + 1, final, err);
    if e.Some? { return; }
    e := IssueNext(db, Commit, plan, k + 2, final, err);
  }

  /** Loading the staging table: opening COPY, the rows, and the calls that
      end the load. */
  method LoadStaging(db: Database, tempTable: string, table: string, columns: seq<string>,
                     rows: seq<seq<string>>, ghost plan: seq<Step>, ghost final: seq<Command>,
                     ghost err: Option<Error>)
    returns (e: Option<Error>, rowsProcessed: nat, progress: seq<nat>)
    requires LoadsRows(plan, tempTable, table, columns, rows)
    requires Resumes(db.respond, db.trace, plan, 0, final, err)
    modifies db
    ensures progress == Milestones(rowsProcessed)
    ensures e.Some? ==>
      && db.trace == final && e == err && |db.trace| > old(|db.trace|)
      && rowsProcessed == RowsCopied(|db.trace| - old(|db.trace|) - 1, |rows|)
    ensures e.None? ==>
      && Resumes(db.respond, db.trace, plan, 3 + |rows| + 3, final, err)
      && |db.trace| == old(|db.trace|) + 6 + |rows| && rowsProcessed == |rows|
  {
    rowsProcessed, progress := 0, [];
    e := OpenCopy(db, tempTable, table, columns, plan, final, err);
    if e.Some? { return; }
    e, rowsProcessed, progress := CopyRows(db, rows, plan, final, err);
    if e.Some? { return; }
    e := FinishCopy(db, plan, 3 + |rows|, final, err);
  }

  /** CREATE UNIQUE INDEX, whose failure ends Upsert, then ANALYZE, whose
      error is dropped: the next call overwrites it. */
  method PrepareStaging(db: Database, tempTable: string, idColumn: string, ghost plan: seq<Step>,
                        ghost k: nat, ghost final: seq<Command>, ghost err: Option<Error>)
    returns (e: Option<Error>)
    requires k + 2 <= |plan|
    requires plan[k] == Step(DbExec(UniqueIndexSql(tempTable, idColumn)), true)
    requires plan[k + 1] == Step(DbExec(AnalyzeSql(tempTable)), false)
    requires Resumes(db.respond, db.trace, plan, k, final, err)
    modifies db
    ensures e.Some? ==> db.trace == final && e == err && |db.trace| == old(|db.trace|) + 1
    ensures e.None? ==> Resumes(db.respond, db.trace, plan, k + 2, final, err) && |db.trace| == old(|db.trace|) + 2
  {
    e := IssueNext(db, DbExec(UniqueIndexSql(tempTable, idColumn)), plan, k, final, err);
    if e.Some? { return; }
    var ignored := IssueNext(db, DbExec(AnalyzeSql(tempTable)), plan, k + 1, final, err);
  }

  /** The merge transaction: begin, the revision statement when it is not
      empty, the upsert statement, commit. */
  method MergeStaging(db: Database, query: string, revisionQuery: string, ghost plan: seq<Step>,
                      ghost k: nat, ghost final: seq<Command>, ghost err: Option<Error>)
    returns (e: Option<Error>)
    requires k <= |plan| && plan[k..] == MergeSteps(query, revisionQuery)
    requires Resumes(db.respond, db.trace, plan, k, final, err)
    modifies db
    ensures e.Some? ==> db.trace == final && e == err
    ensures e.None? ==> db.trace == final && err.None?
  {
    var rv := if revisionQuery != "" then 1 else 0;
    assert plan[k] == Step(Begin, true) && k + 3 + rv == |plan|;
    e := IssueNext(db, Begin, plan, k, final, err);
    if e.Some? { return; }
    if revisionQuery != "" {
      assert plan[k + 1] == Step(TxnExec(revisionQuery), true);
      e := IssueNext(db, TxnExec(revisionQuery), plan, k + 1, final, err);
      if e.Some? { return; }
    }
    assert plan[k + 1 + rv] == Step(TxnExec(query), true) && plan[k + 2 + rv] == Step(Commit, true);
    e := IssueNext(db, TxnExec(query), plan, k + 1 + rv, final, err);
    if e.Some? { return; }
    e := IssueNext(db, Commit, plan, k + 2 + rv, final, err);
    if e.Some? { return; }
    assert plan[k + 3 + rv..] == [];
  }

  method Upsert<T>(db: Database, engine: Engine<T>, table: string, idColumn: string, columns: seq<string>,
                   rows: seq<seq<string>>, hasRevisions: bool)
    returns (err: Option<Error>, rowsProcessed: nat, progress: seq<nat>)
    modifies db
    ensures progress == Milestones(rowsProcessed)
    ensures var built := BuildQuery(engine, table, StagingName(table), idColumn, columns, hasRevisions);
      if built.err.Some? then
        err == built.err && db.trace == old(db.trace) && rowsProcessed == 0
      else
        var run := Run(db.respond, old(db.trace),
                       Plan(StagingName(table), table, idColumn, columns, rows, built.query, built.revisionQuery));
        && db.trace == old(db.trace) + run.issued
        && err == run.err
        && rowsProcessed == RowsCopied(Completed(run), |rows|)
  {
    rowsProcessed, progress := 0, [];
    var tempTable := StagingName(table);
    var built := BuildQuery(engine, table, tempTable, idColumn, columns, hasRevisions);
    if built.err.Some? {
      return built.err, rowsProcessed, progress;
    }
    var query, revisionQuery := built.query, built.revisionQuery;

    ghost var h0 := db.trace;
    ghost var plan := Plan(tempTable, table, idColumn, columns, rows, query, revisionQuery);
    ghost var goal := Run(db.respond, h0, plan);
    ghost var final := h0 + goal.issued;
    ghost var n := |rows|;
    LoadLayout(tempTable, table, idColumn, columns, rows, query, revisionQuery);
    PrepareMergeLayout(tempTable, table, idColumn, columns, rows, query, revisionQuery);
    assert plan[0..] == plan;

    err, rowsProcessed, progress := LoadStaging(db, tempTable, table, columns, rows, plan, final, goal.err);
    if err.Some? { return; }
    ghost var k := 3 + |rows| + 3;
    assert k == 6 + n;
    err := PrepareStaging(db, tempTable, idColumn, plan, k, final, goal.err);
    if err.Some? { return; }
    assert k + 2 == 8 + n;
    err := MergeStaging(db, query, revisionQuery, plan, k + 2, final, goal.err);
  }
}
