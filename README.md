# V3 upgrade validation report: a verified model

`LM_Validation.py` builds the V2 half of an upgrade validation workbook.
For every application of every domain it does four things:

- it runs nine catalog queries against the application's `_central`, `_local` and `_mngt` schemas;
- it adds the application's graph object count, summed over the tenant databases;
- it turns the ten metric results into a block of report rows (App Name, Parameters, V2, V3, Variation);
- it appends that block to the sheet of the application's domain, or to the "default" sheet.

This project models that core in Dafny and proves what it promises.
The files, from the bottom up:

- `outcomes.dfy` holds `Option` and `Result`. It also holds the cell model: a database value is an integer, a text or NULL, and a query result is a sequence of rows.
- `text.dfy` is an ASCII model of the Python string operations the report uses:
  - `str.title()` and `replace("_", " ")` for the Parameters column;
  - `str(int)` and `int(str)`;
  - `", ".join` for the technology breakdown, with the split that reads it back.
- `extraction.dfy` is `extract_v2`, one rule per metric family. Every way it can raise is an explicit `Err`.
- `excel_rows.dfy` has two parts:
  - `build_excel_rows` as a loop method, proved equal to the specification function `ProjectRows`;
  - the layout lemmas about `ProjectRows`.
- `object_counts.dfy` is `fetch_neo4j_object_counts`: the nested loop, proved against a sum over tenants.
- `collection.dfy` covers what happens to one application before any rows exist:
  - sheet choice;
  - the nine statements and their schemas;
  - the all-or-nothing try block;
  - the `all_data` record.
- `report.dfy` is the loop of `generate_report`.
  - `StepApp` specifies one application and `RunJobs` specifies the whole run.
  - The class `ReportGenerator` holds `processed_default_apps` and the workbook's sheets, and its methods are proved against those functions.
  - `GenerateReport` is proved equal to `ReportOutput`.
  - The lemmas prove the run's invariants: deduplication of default applications, the append and header rule, and abort on error.

The databases are parameters:

- the relational store is a function from statements (search path plus query) to `Fetched(rows)` or `Failed`;
- each tenant's graph database is its list of Application entries with their count results;
- the domains come with the application rows fetched for each of them.

## Model

| member | source | states |
|---|---|---|
| Extraction.ExtractV2Rules | LM_Validation.py:83-106 | An empty result or an unrecognised key gives 0. `loc` and the five scalar keys give the first cell of the first row, or IndexError when that row is empty. The two missing-code keys give the row count. The critical-violations key gives column 3 of the first row, and IndexError unless that row has at least four cells. The technology breakdown succeeds exactly when every row is a (technology, integer) pair. Only the breakdown raises anything other than IndexError. |
| Extraction.TechSegments | LM_Validation.py:91 | The generator succeeds exactly when every row unpacks into two values and its LOC converts with `int()`. It then yields one `tech:loc` segment per row, in row order. Otherwise it raises an unpack or conversion error. |
| Extraction.TechBreakdownSegments | LM_Validation.py:90-91 | Splitting the breakdown on ", " gives exactly one `tech:loc` segment per row, in row order, provided no technology name contains ", ". |
| Extraction.TechBreakdownExample | LM_Validation.py:90-91 | The rows ("JEE", 59803) and ("SQL", 0) give "JEE:59803, SQL:0". |
| Text.TitleAt | LM_Validation.py:120 | `str.title()` keeps the length. A letter becomes upper case when no letter precedes it and lower case otherwise. Every other character is unchanged. |
| Text.TitleIdempotent | LM_Validation.py:120 | Title-casing a title-cased label changes nothing. |
| Text.ReplaceUnderscores | LM_Validation.py:120 | `replace("_", " ")` keeps the length and turns exactly the underscores into spaces. |
| Text.LabelAt | LM_Validation.py:120 | A Parameters label has the key's length and contains no underscore. Each of its letters is upper case exactly when it starts a word of the key. |
| Text.IntToStringRoundTrip | LM_Validation.py:91 | `int(str(n)) == n` for every integer, negative ones included. |
| Text.IntToStringShape | LM_Validation.py:91 | `str(n)` is non-empty and ends in a digit. Every character after the first is a digit. The first is a minus sign exactly when n is negative, and a digit otherwise. |
| Text.SplitJoin | LM_Validation.py:91 | Splitting a ", "-joined list on ", " gives the list back, provided no part contains ", " or ends in ",". |
| ExcelRows.BuildExcelRows | LM_Validation.py:109-127 | The loop over the record's items returns exactly `ProjectRows` of the record, including its first error. |
| ExcelRows.ProjectRowsLayout | LM_Validation.py:112-125 | There is one row per item other than `domain_name` and `app_name`, in insertion order. The application name is on the first row and "" on every later one. Parameters is the label of the key, V2 is the item's extraction, and V3 and Variation are "". The rows exist exactly when every extraction succeeds; otherwise the result is the error of one of them. |
| ExcelRows.ProjectFromSucceeds | LM_Validation.py:114-125 | Projecting a record succeeds exactly when every metric item extracts. |
| ExcelRows.ProjectFromFails | LM_Validation.py:114-125 | A failed projection carries the error of one of the record's extractions. |
| ExcelRows.ProjectFromRowAt | LM_Validation.py:118-125 | Row k of a projection is the row of metric item k: its label, its extracted value, and the name only on the block's first row. |
| ExcelRows.MetricsUnskipped | LM_Validation.py:114-116 | A record with no identifying keys lists every item as a metric, in order. |
| ObjectCounts.FetchObjectCounts | LM_Validation.py:48-80 | The keys are exactly the non-empty names some tenant lists. Each maps to the sum of its counts over every tenant and every occurrence. A missing count result adds 0. |
| ObjectCounts.CountForIsTotal | LM_Validation.py:220 | `get(app_name, 0)` on the table is the application's total over all tenants, whether it is listed or not. |
| ObjectCounts.TotalAppend | LM_Validation.py:52-77 | The totals of two groups of tenant databases taken together are the sums of their separate totals. |
| ObjectCounts.IgnoredEntriesAddNothing | LM_Validation.py:61-73 | A tenant whose entries all have a null or empty name, or no count record, changes no total. |
| ObjectCounts.TotalOutside | LM_Validation.py:63-64 | A name that no tenant lists has total 0. |
| Collection.SheetFor | LM_Validation.py:172 | A truthy guid files the application on its domain's sheet. A NULL or empty guid files it on "default". |
| Collection.EmptyGuidSplitsTheTests | LM_Validation.py:172-194 | An empty guid goes to the default sheet, yet its LOC query compares domain_guid with "". |
| Collection.NullGuidAgrees | LM_Validation.py:172-194 | A NULL guid gives both the default sheet and the NULL-domain LOC query. |
| Collection.PlanNamespaces | LM_Validation.py:186-218 | There are nine statements: the first four under `<schema>_central`, the next four under `_local`, the last under `_mngt`. The LOC query comes first. |
| Collection.RunAll | LM_Validation.py:186-224 | The try block yields results exactly when every statement succeeds, one result per statement in order. A single failure discards the whole application. |
| Collection.BuildRecordMetrics | LM_Validation.py:230-243 | The record is one `build_excel_rows` accepts. Its metric items are the ten keys in dict order, each holding its query's result; the object count is a one-cell result. |
| Collection.RecordProjection | LM_Validation.py:230-245 | Every collected application yields either an error or exactly ten rows, labelled by the ten keys in order, with the application name on the first row only. |
| Collection.CriticalViolationsShapeFails | LM_Validation.py:104 | When the critical-violations query (Queries.py:38-54) returns its three-column row, building the application's rows raises. |
| Report.WriteBlockRule | LM_Validation.py:247-258 | A block is written after the sheet's existing rows, which are unchanged. A header comes first exactly when the sheet was absent or empty. No other sheet changes. |
| Report.StepRules | LM_Validation.py:171-258 | A duplicate default application changes nothing. Otherwise the name is recorded when the sheet is "default". Nothing is written when a query failed. At most one block is written, and only after all queries succeeded. An error leaves the workbook and the history unchanged, and arises only after all queries succeeded. |
| Report.StepWritesWhenBuilt | LM_Validation.py:171-258 | An application that is not an already-processed default one and whose queries all succeeded is recorded in the processed set when its sheet is "default". When `build_excel_rows` succeeds, exactly its block is appended to the application's sheet, on the default sheet as on a named one. When it raises, nothing is written and the step ends the run with that error. |
| Report.StepBlock | LM_Validation.py:171-258 | A written block has ten rows and carries its application's name. On the default sheet, it belongs to an application not taken up before. |
| Report.StepPreserves | LM_Validation.py:159-258 | Every step keeps the invariant. Each sheet is its header followed by the blocks written to it, in order. Every default block's application is in the processed set. Default applications are unique, and every block has ten rows. |
| Report.RunPreserves | LM_Validation.py:161-258 | The invariant holds after any sequence of applications. |
| Report.HeaderOnlyFirst | LM_Validation.py:252-258 | In a valid state each sheet has its header on its first line and nowhere else. |
| Report.RunExtends | LM_Validation.py:159-258 | A run only adds: the processed set grows, the history is extended, and every sheet keeps its earlier rows as a prefix. |
| Report.AbortSticky | LM_Validation.py:245 | After an error no further application is processed, and the state and error stay as they were. |
| Report.ProcessedNeverWritten | LM_Validation.py:175-181 | A default application already taken up never gets another block on the default sheet. |
| Report.FailedDefaultNeverRetried | LM_Validation.py:181-224 | A default application whose queries failed writes nothing, and no later domain writes a default block for it. |
| Report.NonDefaultNotDeduplicated | LM_Validation.py:172-181 | An application of a named domain is written whatever was processed before, as long as its queries and rows succeed. |
| Report.ReportShape | LM_Validation.py:130-258 | In the final workbook, each sheet is one header followed by its ten-row blocks in order. Each default application has at most one block. |
| Report.ReportGenerator.ProcessApplication | LM_Validation.py:171-258 | The loop body updates `processed_default_apps` and the sheets exactly as `StepApp` specifies. |
| Report.ReportGenerator.ProcessDomain | LM_Validation.py:171-258 | The inner loop over a domain's application rows runs them in order until the end or the first error. |
| Report.GenerateReport | LM_Validation.py:130-258 | The object counts come first, then every application of every domain in order. The result is exactly `ReportOutput`: the workbook left behind and the error that ended the run, if any. |

## Left out

- Database and graph clients: connections, cursors, sessions, `fetchall` and `single` are not modelled. Their answers are inputs. A connection failure, which aborts the whole run, is not modelled.
- The SQL and Cypher texts are not modelled. Each query is a constructor, and only its parameters and search path are kept. `check_schemas`, which runs once per domain and whose result is unused, is also left out.
- Statement outcomes are modelled independently of each other. The code never rolls back, so under the database driver's default transaction mode the first failed statement makes every later statement of the connection fail as well. That includes `fetch_app_schema` at LM_Validation.py:166, which is outside the try block, so a real run ends at the next domain. The step and run lemmas (`StepRules`, `FailedDefaultNeverRetried` and the rest) state that processing continues after a failed application only under this independent-outcomes abstraction.
- The application query at Queries.py:82-89 returns the applications of the domain and those with a NULL domain. The model takes each domain's rows as given and does not derive them from that query.
- pandas and openpyxl are reduced to the rule "a sheet is a sequence of rows; write at its current length; a header only when that length is 0". Cell formatting, the file on disk and its closing are left out.
- Logging (logger.py) and configuration (config.py) are left out.
- The V3 reconciliation, the variation computation and the operator menu are not part of this model.
- `int()` of a text cell accepts only an optional sign followed by ASCII digits. Surrounding whitespace, underscores, other Unicode digits, and truncation of floats or decimals are not modelled. LOC values are integers.
- `str()` of a cell is modelled for integers, texts and NULL ("None") only.
- `str.title()` and case changes are modelled for ASCII letters only.
- A graph count result is a natural number or "no record"; an `Application` node whose `Name` is not a string is not modelled.
- The header line is a single distinguished sheet row. Its column names (App Name, Parameters, V2, V3, Variation) are not modelled cell by cell.
- The model follows the code as written:
  - the sheet choice tests the guid's truthiness, so an empty guid also goes to "default";
  - deduplication tests `sheet == "default"`, so a domain literally named "default" is deduplicated too;
  - the schema is always the application's own prefix;
  - the headers are "App Name" and "Parameters";
  - the critical-violations value is read from index 3;
  - an error while building rows is not caught, so it ends the run, and the workbook keeps the blocks already written.
