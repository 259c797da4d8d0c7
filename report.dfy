/**
 * The application loop of generate_report as a state machine. The state is
 * the set of default applications already taken up and the rows written to
 * each sheet so far; every application of every domain is one step. A step
 * may skip a duplicate default application, skip an application whose
 * queries raised, append the application's block to its sheet, or end the
 * run when building the block raises.
 */
module Report {
  import opened Outcomes
  import opened Cells
  import opened Text
  import opened ExcelRows
  import opened ObjectCounts
  import opened Collection

  /** A written sheet row: the header line, or one report row. */
  datatype SheetRow = Header | Data(row: ReportRow)

  /** The workbook: each sheet's rows, top to bottom. */
  type Sheets = map<string, seq<SheetRow>>

  /** A domain's name and the application rows fetched for it. */
  datatype Domain = Domain(name: string, apps: seq<AppRow>)

  /** One iteration of the inner loop: an application row met while processing a domain. */
  datatype Job = Job(domain: string, app: AppRow)

  /** A block that was written: its sheet, its application and its rows. */
  datatype Block = Block(sheet: string, app: string, rows: seq<ReportRow>)

  /**
   * processed_default_apps and the workbook, together with the blocks
   * written so far (the history the workbook is made of).
   */
  datatype RunState = RunState(processed: set<string>, sheets: Sheets, log: seq<Block>)

  const Initial: RunState := RunState({}, map[], [])

  // ---------------------------------------------------------------- writing a block

  /** The data lines of a block. */
  function DataRows(rows: seq<ReportRow>): (r: seq<SheetRow>)
    ensures |r| == |rows|
  {
    seq(|rows|, k requires 0 <= k < |rows| => Data(rows[k]))
  }

  lemma {:induction false} DataRowsAppend(a: seq<ReportRow>, b: seq<ReportRow>)
    ensures DataRows(a + b) == DataRows(a) + DataRows(b)
  {
  }

  /** The data lines hold no header. */
  lemma {:induction false} DataRowsHaveNoHeader(rows: seq<ReportRow>)
    ensures forall k :: 0 <= k < |rows| ==> DataRows(rows)[k] == Data(rows[k])
  {
  }

  /** `writer.sheets[sheet].max_row if sheet in writer.sheets else 0`. */
  function StartRow(sheets: Sheets, sheet: string): nat
  {
    if sheet in sheets then |sheets[sheet]| else 0
  }

  /** df.to_excel(sheet_name=sheet, startrow=startrow, header=startrow == 0). */
  function WriteBlock(sheets: Sheets, sheet: string, rows: seq<ReportRow>): Sheets
  {
    var existing := if sheet in sheets then sheets[sheet] else [];
    sheets[sheet := existing + (if StartRow(sheets, sheet) == 0 then [Header] else []) + DataRows(rows)]
  }

  /**
   * The write rule: the block goes after the sheet's existing rows, which
   * stay as they were; a header precedes it exactly when the sheet was
   * absent or empty; no other sheet changes.
   */
  lemma {:induction false} WriteBlockRule(sheets: Sheets, sheet: string, rows: seq<ReportRow>)
    ensures var after := WriteBlock(sheets, sheet, rows);
      && after.Keys == sheets.Keys + {sheet}
      && (forall s :: s in sheets && s != sheet ==> after[s] == sheets[s])
      && (sheet in sheets ==> sheets[sheet] <= after[sheet])
      && (StartRow(sheets, sheet) == 0 ==> after[sheet] == [Header] + DataRows(rows))
      && (StartRow(sheets, sheet) > 0 ==> after[sheet] == sheets[sheet] + DataRows(rows))
  {
  }

  // ---------------------------------------------------------------- one application

  /** The record's object count: `neo4j_object_counts.get(app_name, 0)`. */
  function RecordFor(sheet: string, app: AppRow, results: seq<QueryResult>, counts: map<string, nat>): Record
    requires |results| == 9
  {
    BuildRecord(sheet, app.name, results, CountFor(counts, app.name))
  }

  /**
   * One iteration of the application loop. A default application already
   * taken up is skipped; otherwise a default application is recorded
   * before its queries run. When a query raises, nothing is written. When
   * building the rows raises, the run ends with that error. Otherwise the
   * block is appended to the sheet.
   */
  function StepApp(st: RunState, job: Job, db: Statement -> QueryOutcome, counts: map<string, nat>): (RunState, Option<Error>)
  {
    var app := job.app;
    var sheet := SheetFor(job.domain, app.domainGuid);
    if sheet == DefaultSheet && app.name in st.processed then (st, None)
    else
      var processed := if sheet == DefaultSheet then st.processed + {app.name} else st.processed;
      match Collect(app, db)
      case None => (st.(processed := processed), None)
      case Some(results) =>
        var rec := RecordFor(sheet, app, results, counts);
        BuildRecordAccepted(sheet, app.name, results, CountFor(counts, app.name));
        match ProjectRows(rec)
        case Err(e) => (st.(processed := processed), Some(e))
        case Ok(rows) => (RunState(processed, WriteBlock(st.sheets, sheet, rows), st.log + [Block(sheet, app.name, rows)]), None)
  }

  /**
   * What a step does, case by case: a duplicate default application
   * changes nothing; any other application adds its name to the processed
   * set exactly when its sheet is "default"; the workbook and the history
   * change only when every query succeeded and the rows were built, and
   * then by one block of that application on its sheet; the step ends the
   * run only when the queries succeeded and building the rows raised.
   */
  lemma {:induction false} StepRules(st: RunState, job: Job, db: Statement -> QueryOutcome, counts: map<string, nat>)
    ensures var sheet, (after, err) := SheetFor(job.domain, job.app.domainGuid), StepApp(st, job, db, counts);
      && (sheet == DefaultSheet && job.app.name in st.processed ==> after == st && err.None?)
      && (!(sheet == DefaultSheet && job.app.name in st.processed) ==>
            after.processed == st.processed + (if sheet == DefaultSheet then {job.app.name} else {}))
      && (Collect(job.app, db).None? ==> after.sheets == st.sheets && after.log == st.log && err.None?)
      && (err.Some? ==> after.sheets == st.sheets && after.log == st.log && Collect(job.app, db).Some?)
      && (after.log != st.log ==>
            && Collect(job.app, db).Some?
            && after.log == st.log + [Block(sheet, job.app.name, after.log[|st.log|].rows)]
            && after.sheets == WriteBlock(st.sheets, sheet, after.log[|st.log|].rows)
            && err.None?)
      && (after.log == st.log ==> after.sheets == st.sheets)
  {
  }

  /**
   * The converse of StepRules: an application that is not a duplicate
   * default and whose queries all succeeded gets exactly the block
   * ProjectRows builds from its record, on its sheet and in the history;
   * when ProjectRows raises, the step ends the run with that error and
   * writes nothing. This holds on the default sheet as on a named one.
   */
  lemma {:induction false} StepWritesWhenBuilt(st: RunState, job: Job, db: Statement -> QueryOutcome, counts: map<string, nat>)
    requires !(SheetFor(job.domain, job.app.domainGuid) == DefaultSheet && job.app.name in st.processed)
    requires Collect(job.app, db).Some?
    ensures var sheet := SheetFor(job.domain, job.app.domainGuid);
      var processed := if sheet == DefaultSheet then st.processed + {job.app.name} else st.processed;
      var rec := RecordFor(sheet, job.app, Collect(job.app, db).value, counts);
      && IsMetricRecord(rec)
      && (ProjectRows(rec).Ok? ==>
            StepApp(st, job, db, counts)
              == (RunState(processed, WriteBlock(st.sheets, sheet, ProjectRows(rec).value),
                           st.log + [Block(sheet, job.app.name, ProjectRows(rec).value)]), None))
      && (ProjectRows(rec).Err? ==>
            StepApp(st, job, db, counts) == (st.(processed := processed), Some(ProjectRows(rec).error)))
  {
    var sheet := SheetFor(job.domain, job.app.domainGuid);
    BuildRecordMetrics(sheet, job.app.name, Collect(job.app, db).value, CountFor(counts, job.app.name));
  }

  // ---------------------------------------------------------------- the invariant

  /** The sheets some block was written to. */
  function SheetsOf(log: seq<Block>): set<string>
  {
    if log == [] then {} else SheetsOf(log[..|log| - 1]) + {log[|log| - 1].sheet}
  }

  /** The rows of the blocks written to `sheet`, in writing order. */
  function RowsOn(log: seq<Block>, sheet: string): seq<ReportRow>
  {
    if log == [] then []
    else RowsOn(log[..|log| - 1], sheet) + (if log[|log| - 1].sheet == sheet then log[|log| - 1].rows else [])
  }

  /** A sheet exists once a block was written to it, and is its header followed by its blocks. */
  predicate SheetsMatchLog(sheets: Sheets, log: seq<Block>)
  {
    && sheets.Keys == SheetsOf(log)
    && forall s :: s in sheets ==> sheets[s] == [Header] + DataRows(RowsOn(log, s))
  }

  /** Every default block's application has been taken up. */
  predicate DefaultsRecorded(processed: set<string>, log: seq<Block>)
  {
    forall k :: 0 <= k < |log| && log[k].sheet == DefaultSheet ==> log[k].app in processed
  }

  /** No two blocks of the default sheet belong to the same application. */
  predicate DefaultsUnique(log: seq<Block>)
  {
    forall i, j :: 0 <= i < j < |log| && log[i].sheet == DefaultSheet && log[j].sheet == DefaultSheet ==>
      log[i].app != log[j].app
  }

  /** Every block has the ten rows of its record, its application's name on the first. */
  predicate BlocksShaped(log: seq<Block>)
  {
    forall k :: 0 <= k < |log| ==> |log[k].rows| == 10 && log[k].rows[0].appName == log[k].app
  }

  predicate Valid(st: RunState)
  {
    SheetsMatchLog(st.sheets, st.log) && DefaultsRecorded(st.processed, st.log)
    && DefaultsUnique(st.log) && BlocksShaped(st.log)
  }

  lemma {:induction false} InitialValid()
    ensures Valid(Initial)
  {
  }

  lemma {:induction false} RowsOnOutside(log: seq<Block>, sheet: string)
    requires sheet !in SheetsOf(log)
    ensures RowsOn(log, sheet) == []
  {
    if log != [] {
      RowsOnOutside(log[..|log| - 1], sheet);
    }
  }

  lemma {:induction false} LogAppend(log: seq<Block>, b: Block)
    ensures (log + [b])[..|log|] == log
    ensures SheetsOf(log + [b]) == SheetsOf(log) + {b.sheet}
  {
    assert (log + [b])[..|log|] == log;
  }

  lemma {:induction false} RowsOnAppend(log: seq<Block>, b: Block, s: string)
    ensures RowsOn(log + [b], s) == RowsOn(log, s) + (if b.sheet == s then b.rows else [])
  {
    assert (log + [b])[..|log|] == log;
  }

  /** The sheet a block is written to holds its header, the earlier blocks and then this one. */
  lemma {:induction false} WrittenSheet(sheets: Sheets, log: seq<Block>, b: Block)
    requires SheetsMatchLog(sheets, log)
    ensures WriteBlock(sheets, b.sheet, b.rows)[b.sheet] == [Header] + DataRows(RowsOn(log, b.sheet) + b.rows)
  {
    var after := WriteBlock(sheets, b.sheet, b.rows)[b.sheet];
    var earlier := RowsOn(log, b.sheet);
    WriteBlockRule(sheets, b.sheet, b.rows);
    DataRowsAppend(earlier, b.rows);
    if b.sheet in sheets {
      assert sheets[b.sheet] == [Header] + DataRows(earlier);
      assert StartRow(sheets, b.sheet) > 0;
      assert after == ([Header] + DataRows(earlier)) + DataRows(b.rows);
    } else {
      RowsOnOutside(log, b.sheet);
      assert earlier + b.rows == b.rows;
    }
  }

  lemma {:induction false} WritePreservesMatch(sheets: Sheets, log: seq<Block>, b: Block)
    requires SheetsMatchLog(sheets, log)
    ensures SheetsMatchLog(WriteBlock(sheets, b.sheet, b.rows), log + [b])
  {
    var after := WriteBlock(sheets, b.sheet, b.rows);
    WriteBlockRule(sheets, b.sheet, b.rows);
    LogAppend(log, b);
    forall s | s in after
      ensures after[s] == [Header] + DataRows(RowsOn(log + [b], s))
    {
      RowsOnAppend(log, b, s);
      if s == b.sheet {
        WrittenSheet(sheets, log, b);
      } else {
        assert RowsOn(log + [b], s) == RowsOn(log, s) + [];
      }
    }
  }

  /**
   * The block a step writes: ten rows, the application's name on the
   * first, and for the default sheet an application not taken up before.
   */
  lemma {:induction false} StepBlock(st: RunState, job: Job, db: Statement -> QueryOutcome, counts: map<string, nat>)
    requires StepApp(st, job, db, counts).0.log != st.log
    ensures var after := StepApp(st, job, db, counts).0;
      var b := after.log[|st.log|];
      && after.log == st.log + [b]
      && after.sheets == WriteBlock(st.sheets, b.sheet, b.rows)
      && b.app == job.app.name
      && |b.rows| == 10 && b.rows[0].appName == b.app
      && (b.sheet == DefaultSheet ==> b.app !in st.processed && b.app in after.processed)
      && after.processed == st.processed + (if b.sheet == DefaultSheet then {b.app} else {})
  {
    StepRules(st, job, db, counts);
    var sheet := SheetFor(job.domain, job.app.domainGuid);
    var results := Collect(job.app, db).value;
    RecordProjection(sheet, job.app.name, results, CountFor(counts, job.app.name));
    assert StepApp(st, job, db, counts).0.log[|st.log|].rows == ProjectRows(RecordFor(sheet, job.app, results, counts)).value;
  }

  lemma {:induction false} StepKeepsSheets(st: RunState, job: Job, db: Statement -> QueryOutcome, counts: map<string, nat>)
    requires StepApp(st, job, db, counts).0.log == st.log
    ensures StepApp(st, job, db, counts).0.sheets == st.sheets
    ensures st.processed <= StepApp(st, job, db, counts).0.processed
  {
  }

  /** Appending a well-formed block, with its default application taken up, keeps the state valid. */
  lemma {:induction false} AppendPreserves(st: RunState, b: Block, processed: set<string>)
    requires Valid(st)
    requires |b.rows| == 10 && b.rows[0].appName == b.app
    requires st.processed <= processed
    requires b.sheet == DefaultSheet ==> b.app !in st.processed && b.app in processed
    ensures Valid(RunState(processed, WriteBlock(st.sheets, b.sheet, b.rows), st.log + [b]))
  {
    WritePreservesMatch(st.sheets, st.log, b);
  }

  /** Every step keeps the workbook, the processed set and the history consistent. */
  lemma {:induction false} StepPreserves(st: RunState, job: Job, db: Statement -> QueryOutcome, counts: map<string, nat>)
    requires Valid(st)
    ensures Valid(StepApp(st, job, db, counts).0)
  {
    var after := StepApp(st, job, db, counts).0;
    if after.log != st.log {
      StepBlock(st, job, db, counts);
      AppendPreserves(st, after.log[|st.log|], after.processed);
    } else {
      StepKeepsSheets(st, job, db, counts);
    }
  }

  /** Once the run is valid, each sheet has its header on its first line and nowhere else. */
  lemma {:induction false} HeaderOnlyFirst(st: RunState)
    requires Valid(st)
    ensures forall s, k :: s in st.sheets && 0 <= k < |st.sheets[s]| ==> (st.sheets[s][k] == Header <==> k == 0)
  {
    forall s, k | s in st.sheets && 0 <= k < |st.sheets[s]|
      ensures st.sheets[s][k] == Header <==> k == 0
    {
      DataRowsHaveNoHeader(RowsOn(st.log, s));
      if k > 0 {
        assert st.sheets[s][k] == DataRows(RowsOn(st.log, s))[k - 1];
      }
    }
  }

  // ---------------------------------------------------------------- the whole run

  /** The jobs of one domain, in the order its application rows were fetched. */
  function DomainJobs(d: Domain): (r: seq<Job>)
    ensures |r| == |d.apps|
  {
    seq(|d.apps|, k requires 0 <= k < |d.apps| => Job(d.name, d.apps[k]))
  }

  /** One more job run after a prefix that ended without error. */
  lemma {:induction false} RunJobsStep(st: RunState, jobs: seq<Job>, j: nat, mid: RunState, next: RunState, err: Option<Error>,
                                       db: Statement -> QueryOutcome, counts: map<string, nat>)
    requires j < |jobs|
    requires RunJobs(st, jobs[..j], db, counts) == (mid, None)
    requires StepApp(mid, jobs[j], db, counts) == (next, err)
    ensures RunJobs(st, jobs[..j + 1], db, counts) == (next, err)
  {
    assert jobs[..j + 1] == jobs[..j] + [jobs[j]];
    RunJobsSnoc(st, jobs[..j], jobs[j], db, counts);
  }

  /** An error raised by the j-th job is the outcome of the whole list. */
  lemma {:induction false} AbortAt(st: RunState, jobs: seq<Job>, j: nat, db: Statement -> QueryOutcome, counts: map<string, nat>)
    requires j <= |jobs|
    requires RunJobs(st, jobs[..j], db, counts).1.Some?
    ensures RunJobs(st, jobs, db, counts) == RunJobs(st, jobs[..j], db, counts)
  {
    AbortSticky(st, jobs[..j], jobs[j..], db, counts);
    assert jobs[..j] + jobs[j..] == jobs;
  }

  /** The jobs of all domains, domain after domain. */
  function Jobs(domains: seq<Domain>): seq<Job>
  {
    if domains == [] then [] else Jobs(domains[..|domains| - 1]) + DomainJobs(domains[|domains| - 1])
  }

  lemma {:induction false} JobsAppend(a: seq<Domain>, b: seq<Domain>)
    ensures Jobs(a + b) == Jobs(a) + Jobs(b)
    decreases |b|
  {
    if b == [] {
      assert a + b == a;
    } else {
      assert (a + b)[..|a + b| - 1] == a + b[..|b| - 1];
      assert (a + b)[|a + b| - 1] == b[|b| - 1];
      JobsAppend(a, b[..|b| - 1]);
      assert Jobs(a + b) == Jobs(a + b[..|b| - 1]) + DomainJobs(b[|b| - 1]);
    }
  }

  /** The jobs in order; after an error no further job runs. */
  function RunJobs(st: RunState, jobs: seq<Job>, db: Statement -> QueryOutcome, counts: map<string, nat>): (RunState, Option<Error>)
  {
    if jobs == [] then (st, None)
    else
      var (mid, err) := RunJobs(st, jobs[..|jobs| - 1], db, counts);
      if err.Some? then (mid, err) else StepApp(mid, jobs[|jobs| - 1], db, counts)
  }

  /** generate_report: the workbook it leaves behind, and the error that ended it, if any. */
  function ReportOutput(domains: seq<Domain>, tenants: seq<Tenant>, db: Statement -> QueryOutcome): (Sheets, Option<Error>)
  {
    var (st, err) := RunJobs(Initial, Jobs(domains), db, CountTable(tenants));
    (st.sheets, err)
  }

  lemma {:induction false} RunPreserves(st: RunState, jobs: seq<Job>, db: Statement -> QueryOutcome, counts: map<string, nat>)
    requires Valid(st)
    ensures Valid(RunJobs(st, jobs, db, counts).0)
  {
    if jobs != [] {
      RunPreserves(st, jobs[..|jobs| - 1], db, counts);
      var (mid, err) := RunJobs(st, jobs[..|jobs| - 1], db, counts);
      if err.None? {
        StepPreserves(mid, jobs[|jobs| - 1], db, counts);
      }
    }
  }

  /**
   * A run only adds: the processed set grows, the history is extended,
   * and every sheet keeps its rows as a prefix of what it ends with.
   */
  lemma {:induction false} RunExtends(st: RunState, jobs: seq<Job>, db: Statement -> QueryOutcome, counts: map<string, nat>)
    ensures var after := RunJobs(st, jobs, db, counts).0;
      && st.processed <= after.processed
      && st.log <= after.log
      && forall s :: s in st.sheets ==> s in after.sheets && st.sheets[s] <= after.sheets[s]
  {
    if jobs != [] {
      RunExtends(st, jobs[..|jobs| - 1], db, counts);
      var (mid, err) := RunJobs(st, jobs[..|jobs| - 1], db, counts);
      if err.None? {
        StepExtends(mid, jobs[|jobs| - 1], db, counts);
      }
    }
  }

  /** One step only adds, as the whole run does. */
  lemma {:induction false} StepExtends(st: RunState, job: Job, db: Statement -> QueryOutcome, counts: map<string, nat>)
    ensures var after := StepApp(st, job, db, counts).0;
      && st.processed <= after.processed
      && st.log <= after.log
      && forall s :: s in st.sheets ==> s in after.sheets && st.sheets[s] <= after.sheets[s]
  {
    var after := StepApp(st, job, db, counts).0;
    if after.log != st.log {
      StepBlock(st, job, db, counts);
      var b := after.log[|st.log|];
      WriteBlockRule(st.sheets, b.sheet, b.rows);
    } else {
      StepKeepsSheets(st, job, db, counts);
    }
  }

  /** An error ends the run: whatever jobs follow, the state and the error stay as they were. */
  lemma {:induction false} AbortSticky(st: RunState, done: seq<Job>, rest: seq<Job>, db: Statement -> QueryOutcome, counts: map<string, nat>)
    requires RunJobs(st, done, db, counts).1.Some?
    ensures RunJobs(st, done + rest, db, counts) == RunJobs(st, done, db, counts)
    decreases |rest|
  {
    if rest == [] {
      assert done + rest == done;
    } else {
      assert (done + rest)[..|done + rest| - 1] == done + rest[..|rest| - 1];
      AbortSticky(st, done, rest[..|rest| - 1], db, counts);
    }
  }

  /**
   * A default application taken up before some jobs never gets a block in
   * the default sheet from those jobs, whether or not it was written.
   */
  lemma {:induction false} ProcessedNeverWritten(st: RunState, jobs: seq<Job>, db: Statement -> QueryOutcome, counts: map<string, nat>, name: string)
    requires name in st.processed
    ensures var after := RunJobs(st, jobs, db, counts).0;
      st.log <= after.log
      && forall k :: |st.log| <= k < |after.log| ==> !(after.log[k].sheet == DefaultSheet && after.log[k].app == name)
  {
    RunExtends(st, jobs, db, counts);
    if jobs != [] {
      ProcessedNeverWritten(st, jobs[..|jobs| - 1], db, counts, name);
      RunExtends(st, jobs[..|jobs| - 1], db, counts);
      var (mid, err) := RunJobs(st, jobs[..|jobs| - 1], db, counts);
      if err.None? {
        var after := StepApp(mid, jobs[|jobs| - 1], db, counts).0;
        if after.log != mid.log {
          StepBlock(mid, jobs[|jobs| - 1], db, counts);
          var b := after.log[|mid.log|];
          assert b.sheet == DefaultSheet ==> b.app != name;
        }
      }
    }
  }

  /**
   * A default application whose queries raised is never retried: after
   * its failed step no later job writes a default block for it.
   */
  lemma {:induction false} FailedDefaultNeverRetried(st: RunState, job: Job, later: seq<Job>, db: Statement -> QueryOutcome, counts: map<string, nat>)
    requires SheetFor(job.domain, job.app.domainGuid) == DefaultSheet
    requires Collect(job.app, db).None?
    ensures var mid := StepApp(st, job, db, counts).0;
      var after := RunJobs(mid, later, db, counts).0;
      && mid.log == st.log
      && mid.log <= after.log
      && forall k :: |st.log| <= k < |after.log| ==> !(after.log[k].sheet == DefaultSheet && after.log[k].app == job.app.name)
  {
    StepRules(st, job, db, counts);
    ProcessedNeverWritten(StepApp(st, job, db, counts).0, later, db, counts, job.app.name);
  }

  /**
   * Applications of a named domain are not deduplicated: whatever was
   * processed before, one whose queries succeed and whose rows are built
   * is written again.
   */
  lemma {:induction false} NonDefaultNotDeduplicated(st: RunState, job: Job, db: Statement -> QueryOutcome, counts: map<string, nat>)
    requires SheetFor(job.domain, job.app.domainGuid) != DefaultSheet
    requires Collect(job.app, db).Some?
    ensures var results := Collect(job.app, db).value;
      var rec := RecordFor(job.domain, job.app, results, counts);
      IsMetricRecord(rec)
      && (ProjectRows(rec).Ok? ==>
            StepApp(st, job, db, counts)
              == (RunState(st.processed, WriteBlock(st.sheets, job.domain, ProjectRows(rec).value),
                           st.log + [Block(job.domain, job.app.name, ProjectRows(rec).value)]), None))
  {
    var results := Collect(job.app, db).value;
    BuildRecordMetrics(job.domain, job.app.name, results, CountFor(counts, job.app.name));
  }

  /**
   * The report as a whole: every sheet is its header followed by the
   * ten-row blocks written to it, in order; each default application has
   * at most one block; no sheet repeats its header.
   */
  lemma {:induction false} ReportShape(domains: seq<Domain>, tenants: seq<Tenant>, db: Statement -> QueryOutcome)
    ensures var st := RunJobs(Initial, Jobs(domains), db, CountTable(tenants)).0;
      && ReportOutput(domains, tenants, db).0 == st.sheets
      && SheetsMatchLog(st.sheets, st.log)
      && DefaultsUnique(st.log)
      && BlocksShaped(st.log)
      && forall s, k :: s in st.sheets && 0 <= k < |st.sheets[s]| ==> (st.sheets[s][k] == Header <==> k == 0)
  {
    InitialValid();
    RunPreserves(Initial, Jobs(domains), db, CountTable(tenants));
    HeaderOnlyFirst(RunJobs(Initial, Jobs(domains), db, CountTable(tenants)).0);
  }

  // ---------------------------------------------------------------- the loop itself

  /** The mutable state of generate_report: the processed set and the writer's sheets. */
  class ReportGenerator {
    var processedDefaultApps: set<string>
    var sheets: Sheets
    ghost var log: seq<Block>

    ghost function State(): RunState
      reads this
    {
      RunState(processedDefaultApps, sheets, log)
    }

    constructor()
      ensures State() == Initial
    {
      processedDefaultApps := {};
      sheets := map[];
      log := [];
    }

    /** The body of the inner loop for one application row of one domain. */
    method ProcessApplication(domainName: string, app: AppRow, db: Statement -> QueryOutcome, counts: map<string, nat>)
      returns (err: Option<Error>)
      modifies this
      ensures (State(), err) == StepApp(old(State()), Job(domainName, app), db, counts)
    {
      var sheet := SheetFor(domainName, app.domainGuid);
      if sheet == DefaultSheet {
        if app.name in processedDefaultApps {
          return None;
        }
        processedDefaultApps := processedDefaultApps + {app.name};
      }
      var results := Collect(app, db);
      if results.None? {
        return None;
      }
      var allData := BuildRecord(sheet, app.name, results.value, CountFor(counts, app.name));
      BuildRecordAccepted(sheet, app.name, results.value, CountFor(counts, app.name));
      var rows := BuildExcelRows(allData);
      ghost var processed := processedDefaultApps;
      assert StepApp(old(State()), Job(domainName, app), db, counts)
        == match rows
           case Err(e) => (old(State()).(processed := processed), Some(e))
           case Ok(block) => (RunState(processed, WriteBlock(old(sheets), sheet, block), old(log) + [Block(sheet, app.name, block)]), None);
      if rows.Err? {
        return Some(rows.error);
      }
      var startRow := if sheet in sheets then |sheets[sheet]| else 0;
      var existing := if sheet in sheets then sheets[sheet] else [];
      sheets := sheets[sheet := existing + (if startRow == 0 then [Header] else []) + DataRows(rows.value)];
      log := log + [Block(sheet, app.name, rows.value)];
      return None;
    }

    /** The inner loop: the application rows of one domain, until the end or the first error. */
    method ProcessDomain(domain: Domain, db: Statement -> QueryOutcome, counts: map<string, nat>)
      returns (err: Option<Error>)
      modifies this
      ensures (State(), err) == RunJobs(old(State()), DomainJobs(domain), db, counts)
    {
      ghost var start := State();
      ghost var jobs := DomainJobs(domain);
      assert jobs[..0] == [];
      for j := 0 to |domain.apps|
        invariant RunJobs(start, jobs[..j], db, counts) == (State(), None)
      {
        ghost var before := State();
        err := ProcessApplication(domain.name, domain.apps[j], db, counts);
        RunJobsStep(start, jobs, j, before, State(), err, db, counts);
        if err.Some? {
          AbortAt(start, jobs, j + 1, db, counts);
          return err;
        }
      }
      assert jobs[..|domain.apps|] == jobs;
      return None;
    }
  }

  lemma {:induction false} CountsAreTable(counts: map<string, nat>, tenants: seq<Tenant>)
    requires counts.Keys == Names(tenants)
    requires forall name :: name in counts ==> counts[name] == Total(tenants, name)
    ensures counts == CountTable(tenants)
  {
  }

  lemma {:induction false} RunJobsSnoc(st: RunState, jobs: seq<Job>, job: Job, db: Statement -> QueryOutcome, counts: map<string, nat>)
    ensures RunJobs(st, jobs + [job], db, counts)
      == if RunJobs(st, jobs, db, counts).1.Some? then RunJobs(st, jobs, db, counts)
         else StepApp(RunJobs(st, jobs, db, counts).0, job, db, counts)
  {
    assert (jobs + [job])[..|jobs|] == jobs;
  }

  lemma {:induction false} JobsNext(domains: seq<Domain>, d: nat)
    requires d < |domains|
    ensures Jobs(domains[..d + 1]) == Jobs(domains[..d]) + DomainJobs(domains[d])
  {
    assert domains[..d + 1][..d] == domains[..d];
  }

  /** Running two lists of jobs one after the other is running them together. */
  lemma {:induction false} RunJobsAppend(st: RunState, a: seq<Job>, b: seq<Job>, db: Statement -> QueryOutcome, counts: map<string, nat>)
    ensures RunJobs(st, a + b, db, counts)
      == if RunJobs(st, a, db, counts).1.Some? then RunJobs(st, a, db, counts)
         else RunJobs(RunJobs(st, a, db, counts).0, b, db, counts)
    decreases |b|
  {
    if b == [] {
      assert a + b == a;
    } else {
      assert (a + b)[..|a + b| - 1] == a + b[..|b| - 1];
      RunJobsAppend(st, a, b[..|b| - 1], db, counts);
    }
  }

  lemma {:induction false} JobsSplitAt(domains: seq<Domain>, d: nat)
    requires d <= |domains|
    ensures Jobs(domains) == Jobs(domains[..d]) + Jobs(domains[d..])
  {
    JobsAppend(domains[..d], domains[d..]);
    assert domains[..d] + domains[d..] == domains;
  }

  /** An error raised while processing the d-th domain is the outcome of the whole run. */
  lemma {:induction false} AbortEndsReport(domains: seq<Domain>, d: nat, db: Statement -> QueryOutcome, counts: map<string, nat>)
    requires d < |domains|
    requires RunJobs(Initial, Jobs(domains[..d + 1]), db, counts).1.Some?
    ensures RunJobs(Initial, Jobs(domains), db, counts) == RunJobs(Initial, Jobs(domains[..d + 1]), db, counts)
  {
    JobsSplitAt(domains, d + 1);
    AbortSticky(Initial, Jobs(domains[..d + 1]), Jobs(domains[d + 1..]), db, counts);
  }

  /**
   * generate_report: the object counts first, then every application of
   * every domain in order, until the end or the first error.
   */
  method GenerateReport(domains: seq<Domain>, tenants: seq<Tenant>, db: Statement -> QueryOutcome)
    returns (sheets: Sheets, err: Option<Error>)
    ensures (sheets, err) == ReportOutput(domains, tenants, db)
  {
    var counts := FetchObjectCounts(tenants);
    CountsAreTable(counts, tenants);
    var generator := new ReportGenerator();
    assert domains[..0] == [];
    for d := 0 to |domains|
      invariant RunJobs(Initial, Jobs(domains[..d]), db, counts) == (generator.State(), None)
    {
      JobsNext(domains, d);
      RunJobsAppend(Initial, Jobs(domains[..d]), DomainJobs(domains[d]), db, counts);
      err := generator.ProcessDomain(domains[d], db, counts);
      if err.Some? {
        AbortEndsReport(domains, d, db, counts);
        return generator.sheets, err;
      }
    }
    assert domains[..|domains|] == domains;
    return generator.sheets, None;
  }
}
