# Car damage analyzer backend: a Dafny model

The backend takes one uploaded photo of a vehicle. It asks a vision model for a JSON
damage report and logs the report's parts to a Google spreadsheet. This project models
the deterministic parts of that backend and proves what they promise:

- **Spreadsheet writer** (`SheetsService`, `sheets_service.dfy`).
  - It turns a report's `parts` into 16-column rows, A to P.
  - The master log gets one row per part.
  - A per-report tab named `Report_<first hyphen segment of the report id>` gets a header,
    one row per part and a summary row. Each part row has a total-cost formula in P that
    names its own sheet row. The summary row's K cell is a `SUM` over the part rows.
  - The writer also picks the link it returns. The link depends on STUB mode, on whether a
    spreadsheet id is set, on whether there are parts, and on which Sheets calls succeeded.
  - Every Sheets API request is returned as a `SheetCall`. What the API answers, and the
    two clock readings, come in as a `SheetsEnv`.
- **Reply default-filling** (`ReplyDefaults`, `openai_service.dfy`).
  - The reply text is decoded by `parse`, a parameter that stands for `json.loads`.
  - An undecodable reply raises a `RuntimeError` whose message ends with the raw text.
  - Otherwise the decoded dict is filled in place by three `setdefault` calls on a `Dict`
    object. They fill `is_car`, `notes` and `parts` and never overwrite.
- **The `/analyze` handler** (`AnalyzeEndpoint`, `main.dfy`).
  - The handler is a function from what its collaborators report to an HTTP answer, plus
    the list of Sheets requests made.
  - Its guards run in order: content type, image validation, analysis, `is_car`, then the
    sheet write.
  - No Sheets request is made unless every earlier guard passed and `is_car` is truthy.

`PyValues` (`py_values.dfy`) holds the Python values a JSON document decodes to. It also holds the
Python behaviour the services rely on: truthiness, `dict.get`, the type names that appear
in exception messages, and the decimal text of an integer in an f-string.

## Model

| member | source | states |
|---|---|---|
| `SheetsService.HeaderRow` | backend/services/sheets_service.py:63-80 | The header is one row of 16 names: `report_id`, `date`, then the nine part fields in the order rows copy them into C..K, then the five user columns L..P. |
| `SheetsService.MasterRow` | backend/services/sheets_service.py:93-110 | A master row has 16 cells. A is the report id and B is the date. C..K hold the part's fields in header order, or `""` for a missing key. L..P are `""`. |
| `SheetsService.BuildRowsForMaster` | backend/services/sheets_service.py:83-112 | The loop yields exactly one row per part, in the parts' order. Every row has the master shape and the same date string. |
| `PyValues.Truthy` | backend/services/sheets_service.py:132 | A value is falsy exactly when it is `None`, `False`, `0`, `0.0`, `""`, `[]` or `{}`. This is the test made by `or []` and `if not parts` (line 144) in the writer, and by `if not ...get("is_car", False)` at backend/main.py:55. |
| `PyValues.Get` | backend/services/sheets_service.py:96 | `part.get(key, "")` yields the stored value when the key is present and the default otherwise. |
| `SheetsService.ReportRow` | backend/services/sheets_service.py:199-221 | A report-tab part row has the same A..O cells as a master row. Its P cell is the total-cost formula for its own sheet row. |
| `SheetsService.TotalCostFormulaInjective` | backend/services/sheets_service.py:199-202 | The P formula names its row: different sheet rows get different formulas. |
| `SheetsService.FormulaColumnsMatchHeader` | backend/services/sheets_service.py:198-202 | The N, O and G cells the formula reads are the header's `part_cost`, `labor_rate` and `estimated_labor_hours` columns. P is `total_cost`, and the summed K is `estimated_total_part_cost`. |
| `SheetsService.SummaryRow` | backend/services/sheets_service.py:244-261 | The summary row has 16 cells: A is the id, B the date, C is `TOTAL`, D is the label, K is the SUM formula, and every other cell is `""`. |
| `SheetsService.SumCoversExactlyThePartRows` | backend/services/sheets_service.py:225-228 | In the rows a report tab receives (`len(parts)+1` of them), the summary row's SUM runs from row 2 to the last part row, and a row lies in that range exactly when it carries its own total-cost formula; the summary row, below the range, does not. |
| `SheetsService.BuildReportRows` | backend/services/sheets_service.py:192-263 | The part at 0-based position k is row k and lands on sheet row 2+k. Its P formula names that row. For non-empty parts one summary row follows, so there are `len(parts)+1` rows. |
| `SheetsService.NormaliseParts` | backend/services/sheets_service.py:132 | `get("parts", []) or []` keeps a truthy `parts` value unchanged and turns a missing or falsy one into `[]`. |
| `SheetsService.MissingPartsAreEmpty` | backend/services/sheets_service.py:132 | A missing `parts`, or one that is `None`, `False`, `0`, `0.0`, `""`, `[]` or `{}`, becomes `[]`. |
| `SheetsService.PartDicts` | backend/services/sheets_service.py:92-96 | Looping over `parts` and calling `.get` succeeds exactly when `parts` is a list of dicts, or is an empty string or dict. A non-empty string or dict fails with the `'str' object has no attribute 'get'` AttributeError. `None`, a boolean or a number fails with "not iterable". |
| `SheetsService.ItemDicts` | backend/services/sheets_service.py:92-96 | A list yields its dicts one for one, in order. Otherwise the error is the AttributeError of its first non-dict item. |
| `SheetsService.ShortId` | backend/services/sheets_service.py:160 | `split("-")[0]` is the longest prefix of the id without `-`. It is the whole id when there is no `-`, and otherwise it stops at the first `-`. |
| `SheetsService.SheetTitle` | backend/services/sheets_service.py:160-161 | The tab title is `Report_` followed by a hyphen-free prefix of the report id. |
| `SheetsService.SheetTitleOfHyphenatedId` | backend/services/sheets_service.py:160-161 | Only the id's first hyphen-separated segment reaches the title: `Report_<head>` for any id `<head>-<rest>` whose head has no hyphen. |
| `SheetsService.TabUrlIdentifiesSheet` | backend/services/sheets_service.py:275 | The `#gid=` link determines the sheet id: different ids give different links. |
| `SheetsService.WriteDamageReport` | backend/services/sheets_service.py:115-280 | The first request made, if any, is the master append at `<master>!A2`. No write makes more than four requests. |
| `SheetsService.StubModeWritesNothing` | backend/services/sheets_service.py:134-141 | STUB mode makes no request. It returns the `/edit` link when a spreadsheet id is set and the bare Sheets URL otherwise. A `parts` value with no `len()` raises instead. |
| `SheetsService.NoPartsWritesNothing` | backend/services/sheets_service.py:143-145 | With a real client and missing or falsy parts, no request is made and the `/edit` link is returned. |
| `SheetsService.MasterLogGetsOneRowPerPart` | backend/services/sheets_service.py:147-157 | The master append carries one master-shaped row per part, in order, all with the master date, sent as USER_ENTERED. |
| `SheetsService.UnreadablePartsWriteNothing` | backend/services/sheets_service.py:147-148 | With a real client, a truthy `parts` the row loop cannot read (a list holding a non-dict, a non-empty string or dict, a number) raises that loop's exception before any request is made. |
| `SheetsService.MasterAppendFailurePropagates` | backend/services/sheets_service.py:151-157 | A failing master append is raised to the caller. No further request follows it. |
| `SheetsService.TabFailureFallsBackToMaster` | backend/services/sheets_service.py:277-280 | After the master append succeeds, a failure in adding the tab, writing its header or appending its rows returns the `/edit` link. |
| `SheetsService.SuccessLinksToNewTab` | backend/services/sheets_service.py:163-275 | When every request succeeds, four requests are made in order: master append, add sheet `Report_<short id>`, header at A1 (RAW), rows at A2. The rows appended are exactly the report rows of the parts, `len(parts)+1` of them, ending with the summary row. The link ends in `#gid=<new sheet id>`. |
| `SheetsService.ReturnedUrlIsSheetsUrl` | backend/services/sheets_service.py:115-280 | Every link returned starts with `https://docs.google.com/spreadsheets`. |
| `ReplyDefaults.Dict.SetDefault` | backend/services/openai_service.py:97-99 | `setdefault` inserts the default only for an absent key, leaves the dict unchanged otherwise, and returns the key's value. |
| `ReplyDefaults.WithDefaults` | backend/services/openai_service.py:96-99 | The result has exactly the input's keys plus `is_car`, `notes` and `parts`. Present keys keep their values, even falsy or null ones. Absent ones become `false`, `""` and `[]`. |
| `ReplyDefaults.WithDefaultsIdempotent` | backend/services/openai_service.py:97-99 | Filling the defaults twice gives the same dict as filling them once. |
| `ReplyDefaults.ParseFailureMessage` | backend/services/openai_service.py:94 | The RuntimeError's message ends with the raw reply text. |
| `ReplyDefaults.AnalyzeContent` | backend/services/openai_service.py:89-101 | A dict comes back exactly when the reply decodes to a JSON object, and then it is that object with defaults filled. A decode failure raises a RuntimeError carrying the raw text. Any other exception from decoding propagates unchanged. Any other decoded value raises an AttributeError on `setdefault`. A `None` content raises the TypeError of `json.loads(None)`. |
| `ReplyDefaults.AnalyzeReply` | backend/services/openai_service.py:89-101 | Decoding and then mutating the dict in place gives the same result or error as `AnalyzeContent`. |
| `AnalyzeEndpoint.Analysis` | backend/services/openai_service.py:60-101 | `analyze_car_damage` raises the client's exception when the request fails. It returns a dict exactly when the reply has content that decodes to a JSON object. That dict keeps every decoded key and value and has `is_car`, `notes` and `parts`. |
| `AnalyzeEndpoint.AnalyzeImage` | backend/main.py:33-73 | A content type other than JPEG or PNG is a 400 before anything else runs. No error detail is null, because the framework turns a `None` detail into the reason phrase. Sheets requests happen only when the image passed validation, the analysis succeeded and `is_car` is truthy. A success carries the report id given to the writer, the writer's link and the analysis dict unchanged. |
| `AnalyzeEndpoint.InvalidImageIs400` | backend/main.py:41-44 | A validation failure is a 400 with the validator's message. Nothing is written. |
| `AnalyzeEndpoint.AnalysisFailureIs500` | backend/main.py:50-53 | Any analysis failure is a 500 whose detail is `OpenAI analysis failed: ` plus the exception text. Nothing is written. |
| `AnalyzeEndpoint.UndecodableReplyShowsRawText` | backend/main.py:50-53 | A reply that is not JSON ends in a 500 whose detail ends with the raw reply. |
| `AnalyzeEndpoint.NotACarIs400` | backend/main.py:55-59 | A missing or falsy `is_car` is a 400 that writes nothing. Its detail is `notes` when that key exists and the stock sentence otherwise. A null `notes` gives `Bad Request`, the phrase the framework's `HTTPException` substitutes for a `None` detail. |
| `AnalyzeEndpoint.NotACarDetailComesFromNotes` | backend/main.py:55-59 | After default-filling, a reply without `is_car` is never a car. The 400's detail is then the reply's `notes`, or `""`, or `Bad Request` for a null `notes`, never the stock sentence. |
| `AnalyzeEndpoint.SheetFailureIs500` | backend/main.py:62-65 | A failing sheet write is a 500 whose detail is `Writing to Google Sheets failed: ` plus the exception text. |
| `AnalyzeEndpoint.CarReportSucceeds` | backend/main.py:67-73 | A car report whose write succeeds answers with exactly `report_id`, `sheet_url` and `damage_report`. They are the id passed to the writer, its link and the analysis dict. |

## Left out

- These files contain no JSON repair, no cost recomputation and no multi-image handling:
  the code makes one `json.loads` call, takes one image and copies the model's cost fields
  unchanged.
- `json.loads` is the parameter `parse`. Decoding, NaN/Infinity and duplicate keys are not
  modelled. Its outcomes are a value, a JSONDecodeError message, or any other exception it
  raises (such as a ValueError for an over-long integer or a RecursionError on deep
  nesting), which escapes the `except` clause unchanged.
- The OpenAI request, the base64 data URL and the prompt are not modelled; they are a
  network call and its text. The model takes only the reply's content, which may be
  `None`, or the exception the client raised.
- `backend/services/image_utils.py` (a PIL wrapper) is the `ImageCheck` parameter.
- Sheets credentials and client start-up are not modelled. Every `.execute()` call is a
  recorded `SheetCall` whose outcome comes from `SheetsEnv`. Start-up appears only as
  `SheetsConfig.available`, with `ValidConfig` saying that a client implies a spreadsheet id.
- Where the Sheets service puts appended rows is not modelled. Part k lands on sheet row
  2+k only because the new tab holds just its header when the rows are appended at A2.
- `uuid.uuid4()` and the two `datetime.now()` readings are parameters. The master rows and
  the tab rows therefore carry separate dates, as in the code.
- Of the framework's `HTTPException`, only the replacement of a `None` detail by the
  status's reason phrase is modelled.
- FastAPI setup, CORS, the health check, `UploadFile.read` and JSON serialisation of the
  response are not modelled. A missing content type counts as one more non-matching string.
- The `print` calls are not modelled. Only the `len(parts)` inside the STUB-mode message
  is kept, because it can raise.
- Python dicts keep insertion order and Dafny maps do not. The model therefore does not say
  where `setdefault` puts new keys in the serialised reply.
- The model does not say which key of a non-empty dict-valued `parts` the loop visits
  first. Every key is a `str`, so the AttributeError text is the same either way.
- The first 15-cell `summary_row` literal (sheets_service.py:230-238) is overwritten before
  use, and `summary_row_index` (line 227) is never read. Neither is modelled.
- Sheet ids are non-negative integers.
