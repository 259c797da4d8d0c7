/**
 * build_excel_rows: one application's metric record (an insertion-ordered
 * dictionary) becomes its block of report rows, one per metric key, with
 * the application's name on the first row only.
 */
module ExcelRows {
  import opened Outcomes
  import opened Cells
  import opened Text
  import opened Extraction

  /** A record value: the two identifying texts, or a metric's raw result. */
  datatype Value = Text(text: string) | Rows(result: QueryResult)

  /** A metric record: the dictionary's items in insertion order. */
  type Record = seq<(string, Value)>

  /** One report row, with the columns App Name, Parameters, V2, V3 and Variation. */
  datatype ReportRow = ReportRow(appName: string, parameter: string, v2: Cell, v3: string, variation: string)

  /** The identifying keys that do not become rows. */
  predicate IsSkipped(key: string)
  {
    key == "domain_name" || key == "app_name"
  }

  /** record[key], the first item with that key. */
  function Lookup(rec: Record, key: string): Option<Value>
  {
    if rec == [] then None
    else if rec[0].0 == key then Some(rec[0].1)
    else Lookup(rec[1..], key)
  }

  /** Every item that becomes a row carries a query result. */
  predicate MetricsAreRows(rec: Record)
  {
    forall k :: 0 <= k < |rec| ==> IsSkipped(rec[k].0) || rec[k].1.Rows?
  }

  /** What build_excel_rows needs: an "app_name" text and results under every metric key. */
  predicate IsMetricRecord(rec: Record)
  {
    && Lookup(rec, "app_name").Some?
    && Lookup(rec, "app_name").value.Text?
    && MetricsAreRows(rec)
  }

  function AppName(rec: Record): string
    requires IsMetricRecord(rec)
  {
    Lookup(rec, "app_name").value.text
  }

  /** The metric items, in record order: the keys that become rows. */
  function Metrics(rec: Record): (m: seq<(string, QueryResult)>)
    requires MetricsAreRows(rec)
  {
    if rec == [] then []
    else if IsSkipped(rec[0].0) then Metrics(rec[1..])
    else [(rec[0].0, rec[0].1.result)] + Metrics(rec[1..])
  }

  lemma {:induction false} MetricsAreRowsSuffix(rec: Record, i: nat)
    requires MetricsAreRows(rec) && i <= |rec|
    ensures MetricsAreRows(rec[i..])
  {
    forall k | 0 <= k < |rec[i..]|
      ensures IsSkipped(rec[i..][k].0) || rec[i..][k].1.Rows?
    {
      assert rec[i..][k] == rec[i + k];
    }
  }

  /** A record none of whose keys is skipped lists its items as they are. */
  lemma {:induction false} MetricsUnskipped(rec: Record)
    requires forall k :: 0 <= k < |rec| ==> !IsSkipped(rec[k].0) && rec[k].1.Rows?
    ensures MetricsAreRows(rec)
    ensures |Metrics(rec)| == |rec|
    ensures forall k :: 0 <= k < |rec| ==> Metrics(rec)[k] == (rec[k].0, rec[k].1.result)
  {
    if rec != [] {
      MetricsUnskipped(rec[1..]);
      var tail := Metrics(rec[1..]);
      assert Metrics(rec) == [(rec[0].0, rec[0].1.result)] + tail;
      forall k | 1 <= k < |rec|
        ensures Metrics(rec)[k] == (rec[k].0, rec[k].1.result)
      {
        assert Metrics(rec)[k] == tail[k - 1] && rec[1..][k - 1] == rec[k];
      }
    }
  }

  /** The row for one metric; the application name only if it is the block's first row. */
  function MetricRow(appName: string, first: bool, key: string, v2: Cell): ReportRow
  {
    ReportRow(if first then appName else "", Label(key), v2, "", "")
  }

  /**
   * The rows of the items `rec`, `first` telling whether no row has been
   * produced yet; the first extraction that raises ends it.
   */
  function ProjectFrom(rec: Record, appName: string, first: bool): Result<seq<ReportRow>, Error>
    requires MetricsAreRows(rec)
  {
    if rec == [] then Ok([])
    else if IsSkipped(rec[0].0) then ProjectFrom(rec[1..], appName, first)
    else match ExtractV2(rec[0].0, rec[0].1.result)
      case Err(e) => Err(e)
      case Ok(v2) =>
        match ProjectFrom(rec[1..], appName, false)
        case Err(e) => Err(e)
        case Ok(rest) => Ok([MetricRow(appName, first, rec[0].0, v2)] + rest)
  }

  /** The specification of build_excel_rows. */
  function ProjectRows(rec: Record): Result<seq<ReportRow>, Error>
    requires IsMetricRecord(rec)
  {
    ProjectFrom(rec, AppName(rec), true)
  }

  /** rows placed in front of a result that may have failed. */
  function Prepend(rows: seq<ReportRow>, r: Result<seq<ReportRow>, Error>): Result<seq<ReportRow>, Error>
  {
    match r
    case Err(e) => Err(e)
    case Ok(rest) => Ok(rows + rest)
  }

  lemma {:induction false} PrependTwice(rows: seq<ReportRow>, more: seq<ReportRow>, r: Result<seq<ReportRow>, Error>)
    ensures Prepend(rows, Prepend(more, r)) == Prepend(rows + more, r)
    ensures Prepend([], r) == r
  {
    if r.Ok? {
      assert rows + (more + r.value) == rows + more + r.value;
      assert [] + r.value == r.value;
    }
  }

  /** build_excel_rows(all_data): the loop over the record's items. */
  method BuildExcelRows(allData: Record) returns (r: Result<seq<ReportRow>, Error>)
    requires IsMetricRecord(allData)
    ensures r == ProjectRows(allData)
  {
    var rows: seq<ReportRow> := [];
    var appName := AppName(allData);
    var first := true;
    assert allData[0..] == allData;
    PrependTwice([], [], ProjectRows(allData));
    for i := 0 to |allData|
      invariant first <==> rows == []
      invariant MetricsAreRows(allData[i..])
      invariant ProjectRows(allData) == Prepend(rows, ProjectFrom(allData[i..], appName, first))
    {
      assert allData[i..][1..] == allData[i + 1..];
      MetricsAreRowsSuffix(allData, i + 1);
      var (key, value) := allData[i];
      if IsSkipped(key) {
        continue;
      }
      var v2 := ExtractV2(key, value.result);
      assert ProjectFrom(allData[i..], appName, first)
        == if v2.Err? then Err(v2.error)
           else Prepend([MetricRow(appName, first, key, v2.value)], ProjectFrom(allData[i + 1..], appName, false));
      if v2.Err? {
        return Err(v2.error);
      }
      PrependTwice(rows, [MetricRow(appName, first, key, v2.value)], ProjectFrom(allData[i + 1..], appName, false));
      rows := rows + [MetricRow(appName, first, key, v2.value)];
      first := false;
    }
    assert rows + [] == rows;
    return Ok(rows);
  }

  /** The extraction of one metric item. */
  function Extracted(item: (string, QueryResult)): Result<Cell, Error>
  {
    ExtractV2(item.0, item.1)
  }

  predicate AllExtract(m: seq<(string, QueryResult)>)
  {
    forall k :: 0 <= k < |m| ==> Extracted(m[k]).Ok?
  }

  lemma {:induction false} ProjectFromSucceeds(rec: Record, appName: string, first: bool)
    requires MetricsAreRows(rec)
    ensures ProjectFrom(rec, appName, first).Ok? <==> AllExtract(Metrics(rec))
  {
    if rec != [] {
      MetricsAreRowsSuffix(rec, 1);
      if IsSkipped(rec[0].0) {
        ProjectFromSucceeds(rec[1..], appName, first);
      } else {
        ProjectFromSucceeds(rec[1..], appName, false);
        var m, tail := Metrics(rec), Metrics(rec[1..]);
        assert m == [(rec[0].0, rec[0].1.result)] + tail;
        if AllExtract(tail) && Extracted(m[0]).Ok? {
          forall k | 1 <= k < |m|
            ensures Extracted(m[k]).Ok?
          {
            assert m[k] == tail[k - 1];
          }
        }
        if AllExtract(m) {
          forall k | 0 <= k < |tail|
            ensures Extracted(tail[k]).Ok?
          {
            assert m[k + 1] == tail[k];
          }
        }
      }
    }
  }

  lemma {:induction false} ProjectFromFails(rec: Record, appName: string, first: bool)
    requires MetricsAreRows(rec)
    requires ProjectFrom(rec, appName, first).Err?
    ensures exists k :: 0 <= k < |Metrics(rec)| && Extracted(Metrics(rec)[k]) == Err(ProjectFrom(rec, appName, first).error)
  {
    MetricsAreRowsSuffix(rec, 1);
    if IsSkipped(rec[0].0) {
      ProjectFromFails(rec[1..], appName, first);
      assert Metrics(rec) == Metrics(rec[1..]);
    } else {
      var m, tail := Metrics(rec), Metrics(rec[1..]);
      assert m == [(rec[0].0, rec[0].1.result)] + tail;
      if Extracted(m[0]).Ok? {
        ProjectFromFails(rec[1..], appName, false);
        var k :| 0 <= k < |tail| && Extracted(tail[k]) == Err(ProjectFrom(rec, appName, first).error);
        assert m[k + 1] == tail[k];
      }
    }
  }

  lemma {:induction false} ProjectFromRowAt(rec: Record, appName: string, first: bool, k: nat)
    requires MetricsAreRows(rec)
    requires ProjectFrom(rec, appName, first).Ok?
    ensures |ProjectFrom(rec, appName, first).value| == |Metrics(rec)|
    ensures k < |Metrics(rec)| ==>
      var item, row := Metrics(rec)[k], ProjectFrom(rec, appName, first).value[k];
      Extracted(item) == Ok(row.v2) && row == MetricRow(appName, first && k == 0, item.0, row.v2)
  {
    if rec != [] {
      MetricsAreRowsSuffix(rec, 1);
      if IsSkipped(rec[0].0) {
        ProjectFromRowAt(rec[1..], appName, first, k);
      } else {
        ProjectFromRowAt(rec[1..], appName, false, if k == 0 then 0 else k - 1);
        var m, tail := Metrics(rec), Metrics(rec[1..]);
        var rows, rest := ProjectFrom(rec, appName, first).value, ProjectFrom(rec[1..], appName, false).value;
        var v2 := ExtractV2(rec[0].0, rec[0].1.result).value;
        assert m == [(rec[0].0, rec[0].1.result)] + tail;
        assert rows == [MetricRow(appName, first, rec[0].0, v2)] + rest;
        if 0 < k < |m| {
          assert m[k] == tail[k - 1] && rows[k] == rest[k - 1];
        }
      }
    }
  }

  /**
   * The layout of an application's block: exactly one row per metric key,
   * in record order; the application name on the first row and "" on every
   * later one; Parameters the title-cased key with "_" read as a space; V2
   * the extracted value; V3 and Variation empty. The block exists exactly
   * when every extraction succeeds, and otherwise fails with the error of
   * one of them.
   */
  lemma {:induction false} ProjectRowsLayout(rec: Record)
    requires IsMetricRecord(rec)
    ensures ProjectRows(rec).Ok? <==> AllExtract(Metrics(rec))
    ensures ProjectRows(rec).Err? ==>
      exists k :: 0 <= k < |Metrics(rec)| && Extracted(Metrics(rec)[k]) == Err(ProjectRows(rec).error)
    ensures ProjectRows(rec).Ok? ==>
      var m, rows := Metrics(rec), ProjectRows(rec).value;
      |rows| == |m|
      && forall k :: 0 <= k < |m| ==>
           && rows[k].appName == (if k == 0 then AppName(rec) else "")
           && rows[k].parameter == Label(m[k].0)
           && rows[k].v2 == Extracted(m[k]).value
           && rows[k].v3 == ""
           && rows[k].variation == ""
  {
    ProjectFromSucceeds(rec, AppName(rec), true);
    if ProjectRows(rec).Err? {
      ProjectFromFails(rec, AppName(rec), true);
    } else {
      ProjectFromRowAt(rec, AppName(rec), true, 0);
      forall k | 0 <= k < |Metrics(rec)|
        ensures var item, row := Metrics(rec)[k], ProjectRows(rec).value[k];
          Extracted(item) == Ok(row.v2) && row == MetricRow(AppName(rec), k == 0, item.0, row.v2)
      {
        ProjectFromRowAt(rec, AppName(rec), true, k);
      }
    }
  }
}
