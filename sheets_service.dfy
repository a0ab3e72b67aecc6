/** The spreadsheet writer of a damage report (backend/services/sheets_service.py).

    A report's parts become 16-column rows: one row per part in the master log, and a
    per-report tab holding a header, one row per part with a live total-cost formula in
    column P, and a summary row whose K cell sums the parts' K cells. Every call the
    writer makes to the Sheets API is returned as a SheetCall; what the API answers is
    given by a SheetsEnv, and the two `datetime.now()` readings are two of its fields. */
module SheetsService {
  import opened PyValues

  type Row = seq<Value>

  /** Number of columns, A to P, of every row written. */
  const Columns: nat := 16
  const ColumnLetters: string := "ABCDEFGHIJKLMNOP"

  /** Sheet row of the first part; row 1 holds the header. */
  const HeaderSheetRow: nat := 1
  const FirstDataRow: nat := 2

  /** 0-based column positions the formulas refer to. */
  const LaborHoursCol: nat := 6     // G
  const TotalPartCostCol: nat := 10 // K
  const PartCostCol: nat := 13      // N
  const LaborRateCol: nat := 14     // O
  const TotalCostCol: nat := 15     // P

  /** The part fields copied, in this order, into columns C to K. */
  const PartFields: seq<string> := [
    "part_id", "part_name", "damage_description", "severity", "estimated_labor_hours",
    "estimated_material_cost", "estimated_paint_cost", "estimated_structural_cost",
    "estimated_total_part_cost"]

  /** The columns L to P that the user fills in later. */
  const UserColumns: seq<string> := ["part_number", "part_url", "part_cost", "labor_rate", "total_cost"]

  const SpreadsheetsUrl: string := "https://docs.google.com/spreadsheets"

  // ---------------------------------------------------------------------------
  // Header and rows

  /** The header shared by the master log and the report tabs: a single row. */
  function HeaderRow(): (h: seq<Row>)
    ensures |h| == 1 && |h[0]| == Columns
    ensures h[0][0] == Str("report_id") && h[0][1] == Str("date")
    ensures forall j :: 0 <= j < |PartFields| ==> h[0][2 + j] == Str(PartFields[j])
    ensures forall j :: 0 <= j < |UserColumns| ==> h[0][2 + |PartFields| + j] == Str(UserColumns[j])
  {
    [[Str("report_id"), Str("date"), Str("part_id"), Str("part_name"), Str("damage_description"),
      Str("severity"), Str("estimated_labor_hours"), Str("estimated_material_cost"),
      Str("estimated_paint_cost"), Str("estimated_structural_cost"), Str("estimated_total_part_cost"),
      Str("part_number"), Str("part_url"), Str("part_cost"), Str("labor_rate"), Str("total_cost")]]
  }

  /** A1-style address of the cell in 0-based column `col` and 1-based sheet row `row`. */
  function CellRef(col: nat, row: nat): string
    requires col < Columns
  {
    [ColumnLetters[col]] + NatToString(row)
  }

  /** Row shape shared by master and report rows: 16 cells, A is the report id, B the
      date, C..K the part's fields (or "" where the key is missing), L..O empty. */
  predicate IsPartRow(row: Row, reportId: string, date: string, part: map<string, Value>) {
    && |row| == Columns
    && row[0] == Str(reportId)
    && row[1] == Str(date)
    && (forall j :: 0 <= j < |PartFields| ==> row[2 + j] == Get(part, PartFields[j], Str("")))
    && (forall c :: 2 + |PartFields| <= c < TotalCostCol ==> row[c] == Str(""))
  }

  /** One master-log row: no formula, P is left empty. */
  function MasterRow(reportId: string, date: string, part: map<string, Value>): (row: Row)
    ensures IsPartRow(row, reportId, date, part)
    ensures row[TotalCostCol] == Str("")
  {
    [Str(reportId), Str(date),
     Get(part, "part_id", Str("")), Get(part, "part_name", Str("")),
     Get(part, "damage_description", Str("")), Get(part, "severity", Str("")),
     Get(part, "estimated_labor_hours", Str("")), Get(part, "estimated_material_cost", Str("")),
     Get(part, "estimated_paint_cost", Str("")), Get(part, "estimated_structural_cost", Str("")),
     Get(part, "estimated_total_part_cost", Str("")),
     Str(""), Str(""), Str(""), Str(""), Str("")]
  }

  function MasterRows(reportId: string, date: string, parts: seq<map<string, Value>>): seq<Row> {
    seq(|parts|, k requires 0 <= k < |parts| => MasterRow(reportId, date, parts[k]))
  }

  /** `_build_rows_for_master`: one row per part, in the order of the parts, every row
      carrying the same date string. */
  method BuildRowsForMaster(reportId: string, date: string, parts: seq<map<string, Value>>)
    returns (rows: seq<Row>)
    ensures |rows| == |parts|
    ensures forall k :: 0 <= k < |parts| ==>
              IsPartRow(rows[k], reportId, date, parts[k]) && rows[k][TotalCostCol] == Str("")
    ensures rows == MasterRows(reportId, date, parts)
  {
    rows := [];
    for k := 0 to |parts|
      invariant |rows| == k
      invariant forall i :: 0 <= i < k ==> rows[i] == MasterRow(reportId, date, parts[i])
    {
      var row := MasterRow(reportId, date, parts[k]);
      rows := rows + [row];
    }
  }

  /** Column P of the part at sheet row `row`: part_cost + labor_hours * labor_rate of
      that same row, or "" while either user column is blank. */
  function TotalCostFormula(row: nat): string {
    var n, o, g := CellRef(PartCostCol, row), CellRef(LaborRateCol, row), CellRef(LaborHoursCol, row);
    "=IF(AND(" + n + "<>\"\"," + o + "<>\"\"), " + n + " + (" + g + " * " + o + "), \"\")"
  }

  /** The formula opens with `=IF(AND(N`, the row's digits, and then `<`. */
  lemma FormulaOpening(row: nat)
    ensures var f, d := TotalCostFormula(row), NatToString(row);
            && |f| > 9 + |d|
            && f[..9] == "=IF(AND(N"
            && f[9..9 + |d|] == d
            && f[9 + |d|] == '<'
  {
    var n := CellRef(PartCostCol, row);
    var rest := "<>\"\"," + CellRef(LaborRateCol, row) + "<>\"\"), " + n + " + (" + CellRef(LaborHoursCol, row)
                + " * " + CellRef(LaborRateCol, row) + "), \"\")";
    assert TotalCostFormula(row) == "=IF(AND(" + n + rest;
  }

  /** Distinct sheet rows get distinct formulas: the formula names its own row. */
  lemma TotalCostFormulaInjective(r1: nat, r2: nat)
    requires TotalCostFormula(r1) == TotalCostFormula(r2)
    ensures r1 == r2
  {
    var f, d1, d2 := TotalCostFormula(r1), NatToString(r1), NatToString(r2);
    FormulaOpening(r1);
    FormulaOpening(r2);
    assert d1 == f[9..9 + |d1|] == d2;
    NatToStringInjective(r1, r2);
  }

  /** The part row at sheet row `row` of a report tab. */
  function ReportRow(reportId: string, date: string, part: map<string, Value>, row: nat): (r: Row)
    ensures IsPartRow(r, reportId, date, part)
    ensures r[TotalCostCol] == Str(TotalCostFormula(row))
  {
    [Str(reportId), Str(date),
     Get(part, "part_id", Str("")), Get(part, "part_name", Str("")),
     Get(part, "damage_description", Str("")), Get(part, "severity", Str("")),
     Get(part, "estimated_labor_hours", Str("")), Get(part, "estimated_material_cost", Str("")),
     Get(part, "estimated_paint_cost", Str("")), Get(part, "estimated_structural_cost", Str("")),
     Get(part, "estimated_total_part_cost", Str("")),
     Str(""), Str(""), Str(""), Str(""), Str(TotalCostFormula(row))]
  }

  /** Sheet row of the last of `partCount` part rows. */
  function LastPartRow(partCount: nat): nat {
    FirstDataRow + partCount - 1
  }

  /** K of the summary row: the sum of column K over the part rows. */
  function SumFormula(partCount: nat): string {
    "=SUM(" + CellRef(TotalPartCostCol, FirstDataRow) + ":" + CellRef(TotalPartCostCol, LastPartRow(partCount)) + ")"
  }

  /** The trailing summary row of a report tab. */
  function SummaryRow(reportId: string, date: string, partCount: nat): (r: Row)
    ensures |r| == Columns
    ensures r[0] == Str(reportId) && r[1] == Str(date)
    ensures r[2] == Str("TOTAL") && r[3] == Str("Total Estimated Repair Cost")
    ensures r[TotalPartCostCol] == Str(SumFormula(partCount))
    ensures forall c :: 4 <= c < Columns && c != TotalPartCostCol ==> r[c] == Str("")
  {
    [Str(reportId), Str(date), Str("TOTAL"), Str("Total Estimated Repair Cost"),
     Str(""), Str(""), Str(""), Str(""), Str(""), Str(""),
     Str(SumFormula(partCount)),
     Str(""), Str(""), Str(""), Str(""), Str("")]
  }

  function ReportRows(reportId: string, date: string, parts: seq<map<string, Value>>): seq<Row> {
    seq(|parts|, k requires 0 <= k < |parts| => ReportRow(reportId, date, parts[k], FirstDataRow + k))
    + (if |parts| > 0 then [SummaryRow(reportId, date, |parts|)] else [])
  }

  /** Rows appended to a report tab below its header: the part at position k lands on
      sheet row FirstDataRow + k and its formula names that row; one summary row follows
      the parts, and its SUM runs from the first to the last part row. */
  method BuildReportRows(reportId: string, date: string, parts: seq<map<string, Value>>)
    returns (rows: seq<Row>)
    ensures |rows| == if |parts| > 0 then |parts| + 1 else 0
    ensures forall k :: 0 <= k < |parts| ==>
              IsPartRow(rows[k], reportId, date, parts[k])
              && rows[k][TotalCostCol] == Str(TotalCostFormula(FirstDataRow + k))
    ensures |parts| > 0 ==> rows[|parts|] == SummaryRow(reportId, date, |parts|)
    ensures rows == ReportRows(reportId, date, parts)
  {
    rows := [];
    var rowIndex := FirstDataRow;
    for k := 0 to |parts|
      invariant |rows| == k && rowIndex == FirstDataRow + k
      invariant forall i :: 0 <= i < k ==> rows[i] == ReportRow(reportId, date, parts[i], FirstDataRow + i)
    {
      var row := ReportRow(reportId, date, parts[k], rowIndex);
      rows := rows + [row];
      rowIndex := rowIndex + 1;
    }
    if |parts| > 0 {
      rows := rows + [SummaryRow(reportId, date, |parts|)];
    }
  }

  /** In the rows a report tab receives, the part rows and only they are summed: a row
      lies in the SUM's range, from the first data row to the last part row, exactly
      when it carries its own total-cost formula, which the summary row below does not. */
  lemma SumCoversExactlyThePartRows(reportId: string, date: string, parts: seq<map<string, Value>>)
    requires |parts| > 0
    ensures var rows := ReportRows(reportId, date, parts);
            && |rows| == |parts| + 1
            && rows[|parts|][TotalPartCostCol] == Str("=SUM(" + CellRef(TotalPartCostCol, FirstDataRow) + ":"
                                                      + CellRef(TotalPartCostCol, LastPartRow(|parts|)) + ")")
            && forall i :: 0 <= i < |rows| ==>
                 (FirstDataRow <= FirstDataRow + i <= LastPartRow(|parts|)
                  <==> rows[i][TotalCostCol] == Str(TotalCostFormula(FirstDataRow + i)))
  {
    FormulaOpening(FirstDataRow + |parts|);
  }

  /** The formula columns are the header's part_cost, labor_rate and labor-hours
      columns, its result lands in total_cost, and the SUM runs over the estimated
      total part cost column. */
  lemma FormulaColumnsMatchHeader()
    ensures HeaderRow()[0][PartCostCol] == Str("part_cost")
    ensures HeaderRow()[0][LaborRateCol] == Str("labor_rate")
    ensures HeaderRow()[0][LaborHoursCol] == Str("estimated_labor_hours")
    ensures HeaderRow()[0][TotalCostCol] == Str("total_cost")
    ensures HeaderRow()[0][TotalPartCostCol] == Str("estimated_total_part_cost")
  {
  }

  // ---------------------------------------------------------------------------
  // Parts, titles and URLs

  /** `damage_json.get("parts", []) or []`. */
  function NormaliseParts(report: map<string, Value>): (parts: Value)
    ensures Truthy(parts) || parts == Arr([])
    ensures "parts" in report && Truthy(report["parts"]) ==> parts == report["parts"]
    ensures !("parts" in report && Truthy(report["parts"])) ==> parts == Arr([])
  {
    var p := Get(report, "parts", Arr([]));
    if Truthy(p) then p else Arr([])
  }

  /** A missing parts entry, or one that is None, False, 0, 0.0, "", [] or {}, becomes
      the empty list. */
  lemma MissingPartsAreEmpty(report: map<string, Value>)
    requires "parts" !in report || !Truthy(report["parts"])
    ensures NormaliseParts(report) == Arr([])
  {
  }

  /** The dictionaries `for part in parts: part.get(...)` reads, or the exception that
      loop raises: iterating a number or a boolean fails, and so does `.get` on the first
      element that is not a dict (the characters of a string and the keys of a dict are
      strings). */
  function PartDicts(parts: Value): (r: Result<seq<map<string, Value>>, PyError>)
    ensures parts.Arr? ==> (r.Ok? <==> forall i :: 0 <= i < |parts.items| ==> parts.items[i].Obj?)
    ensures (parts.Str? || parts.Obj?) ==> (r.Ok? <==> !Truthy(parts))
    ensures (parts.Str? || parts.Obj?) && Truthy(parts) ==> r == Err(NoAttribute(Str(""), "get"))
    ensures r.Ok? ==> |r.value| == if parts.Arr? then |parts.items| else 0
    ensures r.Ok? && parts.Arr? ==> forall i :: 0 <= i < |r.value| ==> Obj(r.value[i]) == parts.items[i]
    ensures !(parts.Arr? || parts.Str? || parts.Obj?) ==>
              r == Err(TypeError("'" + TypeName(parts) + "' object is not iterable"))
  {
    match parts
    case Arr(items) => ItemDicts(items)
    case Str(s) => if s == "" then Ok([]) else Err(NoAttribute(Str([s[0]]), "get"))
    case Obj(m) => if m == map[] then Ok([]) else Err(NoAttribute(Str(""), "get"))
    case _ => Err(TypeError("'" + TypeName(parts) + "' object is not iterable"))
  }

  /** The items of a list as dicts, or the AttributeError of the first item that is not one. */
  function ItemDicts(items: seq<Value>): (r: Result<seq<map<string, Value>>, PyError>)
    ensures r.Ok? <==> forall i :: 0 <= i < |items| ==> items[i].Obj?
    ensures r.Ok? ==> |r.value| == |items| && forall i :: 0 <= i < |items| ==> Obj(r.value[i]) == items[i]
    ensures r.Err? ==> exists i :: 0 <= i < |items| && !items[i].Obj?
                          && (forall j :: 0 <= j < i ==> items[j].Obj?)
                          && r.error == NoAttribute(items[i], "get")
  {
    if items == [] then Ok([])
    else if !items[0].Obj? then Err(NoAttribute(items[0], "get"))
    else match ItemDicts(items[1..])
      case Err(e) => Err(e)
      case Ok(rest) => Ok([items[0].fields] + rest)
  }

  /** `report_id.split("-")[0]`: the report id up to its first hyphen. */
  function ShortId(reportId: string): (r: string)
    ensures r <= reportId
    ensures '-' !in r
    ensures |r| < |reportId| ==> reportId[|r|] == '-'
  {
    if reportId == [] || reportId[0] == '-' then [] else [reportId[0]] + ShortId(reportId[1..])
  }

  /** Title of the report's own tab: `Report_` and then a hyphen-free prefix of the id. */
  function SheetTitle(reportId: string): (t: string)
    ensures |t| >= 7 && t[..7] == "Report_"
    ensures t[7..] <= reportId && '-' !in t[7..]
  {
    "Report_" + ShortId(reportId)
  }

  /** Only the id's first hyphen-separated segment reaches the title: ids that agree up
      to their first hyphen share a tab title. */
  lemma SheetTitleOfHyphenatedId(head: string, rest: string)
    requires '-' !in head
    ensures SheetTitle(head + "-" + rest) == "Report_" + head
  {
    var id := head + "-" + rest;
    var r := ShortId(id);
    assert id[|head|] == '-';
    assert r == id[..|head|] == head;
  }

  function EditUrl(spreadsheetId: string): string {
    SpreadsheetsUrl + "/d/" + spreadsheetId + "/edit"
  }

  /** A link that opens the tab with the given sheet id. */
  function TabUrl(spreadsheetId: string, sheetId: nat): string {
    EditUrl(spreadsheetId) + "#gid=" + NatToString(sheetId)
  }

  /** The tab link tells the tabs apart: different sheet ids give different links. */
  lemma TabUrlIdentifiesSheet(spreadsheetId: string, g1: nat, g2: nat)
    requires TabUrl(spreadsheetId, g1) == TabUrl(spreadsheetId, g2)
    ensures g1 == g2
  {
    var prefix := EditUrl(spreadsheetId) + "#gid=";
    assert TabUrl(spreadsheetId, g1)[|prefix|..] == NatToString(g1);
    assert TabUrl(spreadsheetId, g2)[|prefix|..] == NatToString(g2);
    NatToStringInjective(g1, g2);
  }

  /** `A2`-style range on the named sheet. */
  function RangeAt(sheetName: string, row: nat): string {
    sheetName + "!" + CellRef(0, row)
  }

  // ---------------------------------------------------------------------------
  // The writer

  /** What the module reads at start-up: whether a real Sheets client was built
      (otherwise STUB mode), the spreadsheet id ("" when unset) and the master tab name. */
  datatype SheetsConfig = SheetsConfig(available: bool, spreadsheetId: string, masterSheetName: string)

  /** The client is only built when a spreadsheet id is set. */
  predicate ValidConfig(config: SheetsConfig) {
    config.available ==> config.spreadsheetId != ""
  }

  /** The answers the Sheets API gives to the calls of one write, and the clock. */
  datatype SheetsEnv = SheetsEnv(
    masterDate: string,                  // datetime.now() in _build_rows_for_master
    tabDate: string,                     // datetime.now() before the report rows
    masterAppend: Outcome<PyError>,
    addSheet: Result<nat, PyError>,      // the new sheet id, or any failure reading it
    headerUpdate: Outcome<PyError>,
    reportAppend: Outcome<PyError>)

  datatype InputOption = UserEntered | Raw

  /** One Sheets API request, as issued. */
  datatype SheetCall =
    | AppendRows(range: string, option: InputOption, rows: seq<Row>)
    | AddSheet(title: string)
    | UpdateRows(range: string, option: InputOption, rows: seq<Row>)

  datatype WriteOutcome = WriteOutcome(result: Result<string, PyError>, calls: seq<SheetCall>)

  /** Sizes Python's `len()` accepts among the values `parts` can hold. */
  predicate HasLen(v: Value) {
    v.Str? || v.Arr? || v.Obj?
  }

  /** The URL returned in STUB mode. */
  function StubUrl(spreadsheetId: string): string {
    if spreadsheetId != "" then EditUrl(spreadsheetId) else SpreadsheetsUrl
  }

  /** `write_damage_report(report_id, damage_json)`. */
  function WriteDamageReport(config: SheetsConfig, env: SheetsEnv, reportId: string,
                             report: map<string, Value>): (out: WriteOutcome)
    requires ValidConfig(config)
    ensures out.calls != [] ==> config.available && out.calls[0].AppendRows?
                                && out.calls[0].range == RangeAt(config.masterSheetName, FirstDataRow)
    ensures |out.calls| <= 4
  {
    var parts := NormaliseParts(report);
    var id := config.spreadsheetId;
    if !config.available then
      if HasLen(parts) then WriteOutcome(Ok(StubUrl(id)), [])
      else WriteOutcome(Err(TypeError("object of type '" + TypeName(parts) + "' has no len()")), [])
    else if !Truthy(parts) then
      WriteOutcome(Ok(EditUrl(id)), [])
    else match PartDicts(parts)
      case Err(e) => WriteOutcome(Err(e), [])
      case Ok(dicts) =>
        var master := AppendRows(RangeAt(config.masterSheetName, FirstDataRow), UserEntered,
                                 MasterRows(reportId, env.masterDate, dicts));
        match env.masterAppend
        case Fail(e) => WriteOutcome(Err(e), [master])
        case Pass =>
          var title := SheetTitle(reportId);
          var added := [master, AddSheet(title)];
          match env.addSheet
          case Err(_) => WriteOutcome(Ok(EditUrl(id)), added)
          case Ok(sheetId) =>
            var headed := added + [UpdateRows(RangeAt(title, HeaderSheetRow), Raw, HeaderRow())];
            if env.headerUpdate.Fail? then WriteOutcome(Ok(EditUrl(id)), headed)
            else
              var filled := headed + [AppendRows(RangeAt(title, FirstDataRow), UserEntered,
                                                 ReportRows(reportId, env.tabDate, dicts))];
              if env.reportAppend.Fail? then WriteOutcome(Ok(EditUrl(id)), filled)
              else WriteOutcome(Ok(TabUrl(id, sheetId)), filled)
  }

  // ---------------------------------------------------------------------------
  // What the writer promises

  /** STUB mode writes nothing; it links to the spreadsheet when an id is set and to the
      bare Sheets URL otherwise (a `parts` value without a length raises instead). */
  lemma StubModeWritesNothing(config: SheetsConfig, env: SheetsEnv, reportId: string,
                              report: map<string, Value>)
    requires ValidConfig(config) && !config.available
    ensures WriteDamageReport(config, env, reportId, report).calls == []
    ensures HasLen(NormaliseParts(report)) ==>
              WriteDamageReport(config, env, reportId, report).result ==
                Ok(if config.spreadsheetId != "" then EditUrl(config.spreadsheetId) else SpreadsheetsUrl)
    ensures !HasLen(NormaliseParts(report)) ==> WriteDamageReport(config, env, reportId, report).result.Err?
  {
  }

  /** With a real client and no parts, nothing is written and the spreadsheet's edit
      link is returned. */
  lemma NoPartsWritesNothing(config: SheetsConfig, env: SheetsEnv, reportId: string,
                             report: map<string, Value>)
    requires ValidConfig(config) && config.available
    requires "parts" !in report || !Truthy(report["parts"])
    ensures WriteDamageReport(config, env, reportId, report) ==
              WriteOutcome(Ok(EditUrl(config.spreadsheetId)), [])
  {
  }

  /** The master log receives one row per part, in order, all stamped with one date. */
  lemma MasterLogGetsOneRowPerPart(config: SheetsConfig, env: SheetsEnv, reportId: string,
                                   report: map<string, Value>, dicts: seq<map<string, Value>>)
    requires ValidConfig(config) && config.available
    requires Truthy(NormaliseParts(report)) && PartDicts(NormaliseParts(report)) == Ok(dicts)
    ensures var calls := WriteDamageReport(config, env, reportId, report).calls;
            && calls != []
            && calls[0].AppendRows? && calls[0].option == UserEntered
            && |calls[0].rows| == |dicts|
            && forall k :: 0 <= k < |dicts| ==>
                 IsPartRow(calls[0].rows[k], reportId, env.masterDate, dicts[k])
                 && calls[0].rows[k][TotalCostCol] == Str("")
  {
  }

  /** A failing master append is the one failure that propagates, and nothing is
      attempted after it. */
  lemma MasterAppendFailurePropagates(config: SheetsConfig, env: SheetsEnv, reportId: string,
                                      report: map<string, Value>, e: PyError)
    requires ValidConfig(config) && config.available && Truthy(NormaliseParts(report))
    requires PartDicts(NormaliseParts(report)).Ok? && env.masterAppend == Fail(e)
    ensures WriteDamageReport(config, env, reportId, report).result == Err(e)
    ensures |WriteDamageReport(config, env, reportId, report).calls| == 1
  {
  }

  /** A `parts` value the row loop cannot read raises before any request is made. */
  lemma UnreadablePartsWriteNothing(config: SheetsConfig, env: SheetsEnv, reportId: string,
                                    report: map<string, Value>)
    requires ValidConfig(config) && config.available && Truthy(NormaliseParts(report))
    requires PartDicts(NormaliseParts(report)).Err?
    ensures WriteDamageReport(config, env, reportId, report) ==
              WriteOutcome(Err(PartDicts(NormaliseParts(report)).error), [])
  {
  }

  /** Once the master log is written, any failure while building the report tab falls
      back to the spreadsheet's edit link. */
  lemma TabFailureFallsBackToMaster(config: SheetsConfig, env: SheetsEnv, reportId: string,
                                    report: map<string, Value>)
    requires ValidConfig(config) && config.available && Truthy(NormaliseParts(report))
    requires PartDicts(NormaliseParts(report)).Ok? && env.masterAppend == Pass
    requires env.addSheet.Err? || env.headerUpdate.Fail? || env.reportAppend.Fail?
    ensures WriteDamageReport(config, env, reportId, report).result == Ok(EditUrl(config.spreadsheetId))
  {
  }

  /** When every call succeeds the link opens the new tab, and the tab receives the
      header at A1 and below it one row per part plus the summary row. */
  lemma SuccessLinksToNewTab(config: SheetsConfig, env: SheetsEnv, reportId: string,
                             report: map<string, Value>, dicts: seq<map<string, Value>>, sheetId: nat)
    requires ValidConfig(config) && config.available && Truthy(NormaliseParts(report))
    requires PartDicts(NormaliseParts(report)) == Ok(dicts)
    requires env.masterAppend == Pass && env.addSheet == Ok(sheetId)
    requires env.headerUpdate == Pass && env.reportAppend == Pass
    ensures var out := WriteDamageReport(config, env, reportId, report);
            && out.result == Ok(TabUrl(config.spreadsheetId, sheetId))
            && |out.calls| == 4
            && out.calls[1] == AddSheet(SheetTitle(reportId))
            && out.calls[2] == UpdateRows(RangeAt(SheetTitle(reportId), HeaderSheetRow), Raw, HeaderRow())
            && out.calls[3] == AppendRows(RangeAt(SheetTitle(reportId), FirstDataRow), UserEntered,
                                          ReportRows(reportId, env.tabDate, dicts))
            && |out.calls[3].rows| == |dicts| + 1
            && out.calls[3].rows[|dicts|] == SummaryRow(reportId, env.tabDate, |dicts|)
  {
    assert |dicts| > 0;
  }

  /** Every link returned points into Google Sheets. */
  lemma ReturnedUrlIsSheetsUrl(config: SheetsConfig, env: SheetsEnv, reportId: string,
                               report: map<string, Value>)
    requires ValidConfig(config)
    ensures var r := WriteDamageReport(config, env, reportId, report).result;
            r.Ok? ==> SpreadsheetsUrl <= r.value
  {
  }
}
