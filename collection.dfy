/**
 * The per-application part of generate_report that runs before rows are
 * built: which sheet an application belongs to, which statements are
 * executed against which schema, and the metric record built from their
 * results. The relational store is a function from statements to outcomes.
 */
module Collection {
  import opened Outcomes
  import opened Cells
  import opened Text
  import opened Extraction
  import opened ExcelRows

  /** A domain guid as the catalog returns it: NULL, or a value (possibly empty). */
  datatype Guid = NoGuid | Guid(text: string)

  /** Python truthiness of the guid: NULL and the empty value are false. */
  predicate IsTruthy(g: Guid)
  {
    g.Guid? && g.text != ""
  }

  /** One row of the application query: (name, schema prefix, domain guid). */
  datatype AppRow = AppRow(name: string, schema: string, domainGuid: Guid)

  const DefaultSheet: string := "default"

  /** `sheet = domain_name if app_domain_guid else "default"`. */
  function SheetFor(domainName: string, g: Guid): (sheet: string)
    ensures sheet == DefaultSheet || sheet == domainName
    ensures !IsTruthy(g) ==> sheet == DefaultSheet
    ensures IsTruthy(g) ==> sheet == domainName
  {
    if IsTruthy(g) then domainName else DefaultSheet
  }

  /** The three per-application schema namespaces. */
  datatype Namespace = Central | Local | Mngt

  /** The search path set before a namespace's query group. */
  function SearchPath(schema: string, ns: Namespace): string
  {
    schema + match ns
      case Central => "_central"
      case Local => "_local"
      case Mngt => "_mngt"
  }

  /** The catalog queries an application needs; the two LOC forms carry their parameters. */
  datatype Query =
    | LocNull(app: string)
    | Loc(domainGuid: string, app: string)
    | LocPerTech
    | ExtensionCount
    | CriticalViolations
    | Dlms
    | MissingCodeDb
    | AnalyzedFiles
    | MissingCode
    | CustomizedJobs

  /** A query executed under a search path. */
  datatype Statement = Statement(searchPath: string, query: Query)

  /** What the store answers: the fetched rows, or a raised error. */
  datatype QueryOutcome = Fetched(rows: QueryResult) | Failed

  /** `loc_null if app_domain_guid is None else loc`, with its parameters. */
  function LocQuery(app: AppRow): Query
  {
    match app.domainGuid
    case NoGuid => LocNull(app.name)
    case Guid(g) => Loc(g, app.name)
  }

  /** The statements of the try block, in execution order. */
  function Plan(app: AppRow): seq<Statement>
  {
    var central, local, mngt := SearchPath(app.schema, Central), SearchPath(app.schema, Local), SearchPath(app.schema, Mngt);
    [ Statement(central, LocQuery(app)), Statement(central, LocPerTech),
      Statement(central, ExtensionCount), Statement(central, CriticalViolations),
      Statement(local, Dlms), Statement(local, MissingCodeDb),
      Statement(local, AnalyzedFiles), Statement(local, MissingCode),
      Statement(mngt, CustomizedJobs) ]
  }

  /**
   * The nine statements, in three groups: the first four under the
   * application's _central schema, the next four under _local, the last
   * under _mngt; the LOC query is the first.
   */
  lemma {:induction false} PlanNamespaces(app: AppRow)
    ensures |Plan(app)| == 9
    ensures forall k :: 0 <= k < 4 ==> Plan(app)[k].searchPath == app.schema + "_central"
    ensures forall k :: 4 <= k < 8 ==> Plan(app)[k].searchPath == app.schema + "_local"
    ensures Plan(app)[8].searchPath == app.schema + "_mngt"
    ensures Plan(app)[0].query == LocQuery(app)
  {
  }

  /**
   * The two tests of the guid disagree on the empty value: an application
   * whose guid is "" is filed on the default sheet, as if it had none, yet
   * its LOC query is the one that compares domain_guid with "".
   */
  lemma {:induction false} EmptyGuidSplitsTheTests(domainName: string, app: AppRow)
    requires app.domainGuid == Guid("")
    ensures SheetFor(domainName, app.domainGuid) == DefaultSheet
    ensures Plan(app)[0].query == Loc("", app.name)
  {
  }

  /** A NULL guid takes both the default sheet and the NULL-domain LOC query. */
  lemma {:induction false} NullGuidAgrees(domainName: string, app: AppRow)
    requires app.domainGuid == NoGuid
    ensures SheetFor(domainName, app.domainGuid) == DefaultSheet
    ensures Plan(app)[0].query == LocNull(app.name)
  {
  }

  /**
   * The statements run in order; the first that fails abandons the rest.
   * The results exist exactly when every statement succeeds, one per
   * statement.
   */
  function RunAll(stmts: seq<Statement>, db: Statement -> QueryOutcome): (r: Option<seq<QueryResult>>)
    ensures r.Some? <==> forall k :: 0 <= k < |stmts| ==> db(stmts[k]).Fetched?
    ensures r.Some? ==> |r.value| == |stmts| && forall k :: 0 <= k < |stmts| ==> r.value[k] == db(stmts[k]).rows
  {
    if stmts == [] then Some([])
    else match db(stmts[0])
      case Failed => None
      case Fetched(rows) =>
        match RunAll(stmts[1..], db)
        case None => None
        case Some(rest) => Some([rows] + rest)
  }

  /** The try block: the nine result sets, or nothing when any query raised. */
  function Collect(app: AppRow, db: Statement -> QueryOutcome): Option<seq<QueryResult>>
  {
    RunAll(Plan(app), db)
  }

  /** The order in which the record lists the metrics. */
  const MetricKeys: seq<string> := [
    "loc", "loc_per_tech", "extension_count", "dlms", "missing_code_db",
    "analyzed_files", "Missing Code", "Dashboard - Critical violations",
    "Total Object Count", "Customized Jobs"]

  /**
   * all_data: the sheet and application name, then the results keyed by
   * metric (in the record's order, not the execution order) and the
   * graph object count as a one-cell result.
   */
  function BuildRecord(sheet: string, appName: string, results: seq<QueryResult>, objectCount: int): Record
    requires |results| == 9
  {
    [ ("domain_name", Text(sheet)),
      ("app_name", Text(appName)),
      ("loc", Rows(results[0])),
      ("loc_per_tech", Rows(results[1])),
      ("extension_count", Rows(results[2])),
      ("dlms", Rows(results[4])),
      ("missing_code_db", Rows(results[5])),
      ("analyzed_files", Rows(results[6])),
      ("Missing Code", Rows(results[7])),
      ("Dashboard - Critical violations", Rows(results[3])),
      ("Total Object Count", Rows([[Int(objectCount)]])),
      ("Customized Jobs", Rows(results[8])) ]
  }

  /** The metric items of the record, in record order, with their results. */
  function RecordMetrics(results: seq<QueryResult>, objectCount: int): seq<(string, QueryResult)>
    requires |results| == 9
  {
    [ ("loc", results[0]), ("loc_per_tech", results[1]), ("extension_count", results[2]),
      ("dlms", results[4]), ("missing_code_db", results[5]), ("analyzed_files", results[6]),
      ("Missing Code", results[7]), ("Dashboard - Critical violations", results[3]),
      ("Total Object Count", [[Int(objectCount)]]), ("Customized Jobs", results[8]) ]
  }

  lemma {:induction false} MetricKeysKept()
    ensures forall k :: 0 <= k < |MetricKeys| ==> !IsSkipped(MetricKeys[k])
  {
  }

  lemma {:induction false} RecordItems(sheet: string, appName: string, results: seq<QueryResult>, objectCount: int)
    requires |results| == 9
    ensures var rec, m := BuildRecord(sheet, appName, results, objectCount), RecordMetrics(results, objectCount);
      |rec| == 12 && |m| == 10 &&
      forall k :: 0 <= k < 10 ==> rec[k + 2] == (MetricKeys[k], Rows(m[k].1)) && m[k].0 == MetricKeys[k]
  {
  }

  /**
   * The record built for an application is one build_excel_rows accepts;
   * its metric items are exactly the ten keys of MetricKeys, in that
   * order, each holding the result of its query.
   */
  lemma {:induction false} BuildRecordMetrics(sheet: string, appName: string, results: seq<QueryResult>, objectCount: int)
    requires |results| == 9
    ensures IsMetricRecord(BuildRecord(sheet, appName, results, objectCount))
    ensures AppName(BuildRecord(sheet, appName, results, objectCount)) == appName
    ensures Metrics(BuildRecord(sheet, appName, results, objectCount)) == RecordMetrics(results, objectCount)
    ensures forall k :: 0 <= k < |MetricKeys| ==> RecordMetrics(results, objectCount)[k].0 == MetricKeys[k]
  {
    var rec := BuildRecord(sheet, appName, results, objectCount);
    var m := RecordMetrics(results, objectCount);
    var items := rec[2..];
    RecordItems(sheet, appName, results, objectCount);
    MetricKeysKept();
    MetricsUnskipped(items);
    assert rec[1..][1..] == items;
    assert MetricsAreRows(rec);
    assert Metrics(rec) == Metrics(rec[1..]) == Metrics(items);
    assert Lookup(rec[1..], "app_name") == Some(Text(appName));
  }

  /** The record built for an application is one build_excel_rows accepts. */
  lemma {:induction false} BuildRecordAccepted(sheet: string, appName: string, results: seq<QueryResult>, objectCount: int)
    requires |results| == 9
    ensures IsMetricRecord(BuildRecord(sheet, appName, results, objectCount))
  {
    BuildRecordMetrics(sheet, appName, results, objectCount);
  }

  /**
   * Every application that is collected yields either a projection error
   * or exactly ten report rows: one per metric key in MetricKeys order,
   * the application name on the first row only.
   */
  lemma {:induction false} RecordProjection(sheet: string, appName: string, results: seq<QueryResult>, objectCount: int)
    requires |results| == 9
    ensures IsMetricRecord(BuildRecord(sheet, appName, results, objectCount))
    ensures var r := ProjectRows(BuildRecord(sheet, appName, results, objectCount));
      r.Ok? ==>
        |r.value| == 10
        && r.value[0].appName == appName
        && forall k :: 0 <= k < 10 ==>
             r.value[k].parameter == Label(MetricKeys[k]) && (k > 0 ==> r.value[k].appName == "")
  {
    var rec := BuildRecord(sheet, appName, results, objectCount);
    BuildRecordMetrics(sheet, appName, results, objectCount);
    ProjectRowsLayout(rec);
  }

  /**
   * The critical-violations query selects three columns, while the rule
   * reads the fourth: whenever that query returns a row of three cells,
   * building the application's rows raises.
   */
  lemma {:induction false} CriticalViolationsShapeFails(sheet: string, appName: string, results: seq<QueryResult>, objectCount: int)
    requires |results| == 9
    requires results[3] != [] && |results[3][0]| == 3
    ensures IsMetricRecord(BuildRecord(sheet, appName, results, objectCount))
    ensures ProjectRows(BuildRecord(sheet, appName, results, objectCount)).Err?
  {
    var rec := BuildRecord(sheet, appName, results, objectCount);
    BuildRecordMetrics(sheet, appName, results, objectCount);
    ProjectRowsLayout(rec);
    var m := Metrics(rec);
    ExtractV2Rules(m[7].0, m[7].1);
    assert !AllExtract(m) by {
      assert Extracted(m[7]).Err?;
    }
  }
}
