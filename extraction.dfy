/**
 * extract_v2: the rule that turns one metric's raw query result into the
 * single value shown in the report's V2 column. Each metric family has its
 * own rule; an empty result and an unknown key both show 0.
 */
module Extraction {
  import opened Outcomes
  import opened Cells
  import opened Text

  const LocKey: string := "loc"
  const LocPerTechKey: string := "loc_per_tech"
  const CriticalViolationsKey: string := "Dashboard - Critical violations"

  /** The column of the critical-violations row that is read. */
  const CriticalViolationsColumn: nat := 3

  /** Metrics shown as the first cell of the first row. */
  predicate IsFirstCellKey(param: string)
  {
    param == LocKey
    || param in {"extension_count", "dlms", "analyzed_files", "Total Object Count", "Customized Jobs"}
  }

  /** Metrics shown as the number of rows returned. */
  predicate IsRowCountKey(param: string)
  {
    param in {"missing_code_db", "Missing Code"}
  }

  predicate IsKnownKey(param: string)
  {
    IsFirstCellKey(param) || IsRowCountKey(param) || param == LocPerTechKey || param == CriticalViolationsKey
  }

  /** str(cell) inside an f-string. */
  function CellText(c: Cell): string
  {
    match c
    case Int(n) => IntToString(n)
    case Str(s) => s
    case Null => "None"
  }

  /** int(cell): integers as they are, text through int(str), NULL refused. */
  function CellInt(c: Cell): Option<int>
  {
    match c
    case Int(n) => Some(n)
    case Str(s) => ParseInt(s)
    case Null => None
  }

  /** A row that `for tech, loc in value` unpacks and whose loc int() accepts. */
  predicate IsTechRow(row: Row)
  {
    |row| == 2 && CellInt(row[1]).Some?
  }

  /** The "tech:loc" text of one technology row. */
  function TechSegment(row: Row): string
    requires IsTechRow(row)
  {
    CellText(row[0]) + ":" + IntToString(CellInt(row[1]).value)
  }

  /**
   * The segments of the generator in row order; the first row that does
   * not unpack, or whose loc is not an integer, raises.
   */
  function TechSegments(rows: QueryResult): (r: Result<seq<string>, Error>)
    ensures r.Ok? <==> forall k :: 0 <= k < |rows| ==> IsTechRow(rows[k])
    ensures r.Ok? ==>
      |r.value| == |rows| && forall k :: 0 <= k < |rows| ==> r.value[k] == TechSegment(rows[k])
    ensures r.Err? ==> r.error in {UnpackError, IntConversionError}
  {
    if rows == [] then Ok([])
    else if |rows[0]| != 2 then Err(UnpackError)
    else if CellInt(rows[0][1]).None? then Err(IntConversionError)
    else match TechSegments(rows[1..])
      case Err(e) => Err(e)
      case Ok(rest) => Ok([TechSegment(rows[0])] + rest)
  }

  /** ", ".join(f"{tech}:{int(loc)}" for tech, loc in value). */
  function TechBreakdown(rows: QueryResult): Result<string, Error>
  {
    match TechSegments(rows)
    case Err(e) => Err(e)
    case Ok(segments) => Ok(Join(segments))
  }

  /** value[0][0], which raises when the first row has no cell. */
  function FirstCell(value: QueryResult): Result<Cell, Error>
    requires value != []
  {
    if |value[0]| == 0 then Err(IndexError) else Ok(value[0][0])
  }

  /** extract_v2(param, value). */
  function ExtractV2(param: string, value: QueryResult): Result<Cell, Error>
  {
    if value == [] then Ok(Int(0))
    else if param == LocKey then FirstCell(value)
    else if param == LocPerTechKey then
      match TechBreakdown(value)
      case Err(e) => Err(e)
      case Ok(s) => Ok(Str(s))
    else if IsFirstCellKey(param) then FirstCell(value)
    else if IsRowCountKey(param) then Ok(Int(|value|))
    else if param == CriticalViolationsKey then
      if |value[0]| > CriticalViolationsColumn then Ok(value[0][CriticalViolationsColumn]) else Err(IndexError)
    else Ok(Int(0))
  }

  /**
   * The extraction rules by metric family: an empty result or an unknown
   * key shows 0; "loc" and the scalar counts show the first cell of the
   * first row; the two missing-code metrics show the number of rows; the
   * critical-violations metric shows column 3 of the first row, which
   * exists only when that row has at least four cells; the technology
   * breakdown succeeds exactly when every row is a (technology, integer)
   * pair. Only the technology breakdown raises anything but IndexError.
   */
  lemma {:induction false} ExtractV2Rules(param: string, value: QueryResult)
    ensures value == [] || !IsKnownKey(param) ==> ExtractV2(param, value) == Ok(Int(0))
    ensures value != [] && IsFirstCellKey(param) ==>
      ExtractV2(param, value) == if |value[0]| > 0 then Ok(value[0][0]) else Err(IndexError)
    ensures value != [] && IsRowCountKey(param) ==> ExtractV2(param, value) == Ok(Int(|value|))
    ensures value != [] && param == CriticalViolationsKey ==>
      ExtractV2(param, value)
        == if |value[0]| > CriticalViolationsColumn then Ok(value[0][CriticalViolationsColumn]) else Err(IndexError)
    ensures value != [] && param == LocPerTechKey ==>
      (ExtractV2(param, value).Ok? <==> forall k :: 0 <= k < |value| ==> IsTechRow(value[k]))
      && (ExtractV2(param, value).Ok? ==> ExtractV2(param, value).value == Str(TechBreakdown(value).value))
    ensures ExtractV2(param, value).Err? ==> ExtractV2(param, value).error == IndexError || param == LocPerTechKey
  {
  }

  /** A segment ends in a digit and holds a separator only if its technology name does. */
  lemma {:induction false} TechSegmentSplitsCleanly(row: Row)
    requires IsTechRow(row)
    requires NoSeparator(CellText(row[0]))
    ensures SplitsCleanly(TechSegment(row))
  {
    var name, digits := CellText(row[0]), IntToString(CellInt(row[1]).value);
    var seg := TechSegment(row);
    IntToStringShape(CellInt(row[1]).value);
    assert seg == name + ":" + digits;
    forall i | 0 <= i < |seg| - 1
      ensures !(seg[i] == ',' && seg[i + 1] == ' ')
    {
      if i + 1 < |name| {
        assert seg[i] == name[i] && seg[i + 1] == name[i + 1];
      } else if i + 1 == |name| {
        assert seg[i + 1] == ':';
      } else if i == |name| {
        assert seg[i] == ':';
      } else {
        assert seg[i] == digits[i - |name| - 1];
      }
    }
    assert seg[|seg| - 1] == digits[|digits| - 1];
  }

  /**
   * The technology breakdown has exactly one "tech:loc" segment per result
   * row, in row order: splitting it on ", " gives them back, provided no
   * technology name itself contains ", ".
   */
  lemma {:induction false} TechBreakdownSegments(rows: QueryResult)
    requires rows != []
    requires TechBreakdown(rows).Ok?
    requires forall k :: 0 <= k < |rows| && |rows[k]| > 0 ==> NoSeparator(CellText(rows[k][0]))
    ensures |Split(TechBreakdown(rows).value)| == |rows|
    ensures forall k :: 0 <= k < |rows| ==>
      Split(TechBreakdown(rows).value)[k] == CellText(rows[k][0]) + ":" + IntToString(CellInt(rows[k][1]).value)
  {
    var segments := TechSegments(rows).value;
    forall k | 0 <= k < |segments|
      ensures SplitsCleanly(segments[k])
    {
      TechSegmentSplitsCleanly(rows[k]);
    }
    SplitJoin(segments);
  }

  lemma {:induction false} ExampleDigits()
    ensures IntToString(59803) == "59803" && IntToString(0) == "0"
  {
    assert NatToString(5) == "5";
    assert NatToString(59) == "59";
    assert NatToString(598) == "598";
    assert NatToString(5980) == "5980";
    assert NatToString(59803) == "59803";
    assert NatToString(0) == "0";
  }

  /** The breakdown of the two rows ("JEE", 59803) and ("SQL", 0). */
  lemma {:induction false} TechBreakdownExample()
    ensures TechBreakdown([[Str("JEE"), Int(59803)], [Str("SQL"), Int(0)]]) == Ok("JEE:59803, SQL:0")
  {
    ExampleDigits();
    var rows := [[Str("JEE"), Int(59803)], [Str("SQL"), Int(0)]];
    assert IsTechRow(rows[0]) && IsTechRow(rows[1]);
    assert TechSegment(rows[0]) == "JEE:59803";
    assert TechSegment(rows[1]) == "SQL:0";
    var segments := TechSegments(rows).value;
    assert segments == ["JEE:59803", "SQL:0"];
    assert Join(segments) == "JEE:59803" + ", " + Join(segments[1..]);
    assert segments[1..] == ["SQL:0"];
    assert Join(segments) == "JEE:59803, SQL:0";
    assert TechBreakdown(rows) == Ok(Join(segments));
  }
}
