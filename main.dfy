/** The `POST /analyze` handler (backend/main.py, `analyze_image`) as an ordered chain
    of guards over what its collaborators report: the upload's content type, the image
    validator, the model reply, and the spreadsheet writer. Each guard either ends the
    request with an HTTP error or lets the next step run; only a reply that says the
    image is a car reaches the spreadsheet. */
module AnalyzeEndpoint {
  import opened PyValues
  import opened ReplyDefaults
  import opened SheetsService

  /** What `validate_image` does with the uploaded bytes: accept them, or raise a
      ValueError with this message. */
  datatype ImageCheck = ImageValid | ImageInvalid(message: string)

  /** The model call: its reply's content (which may be None), or the exception the
      client raised. */
  datatype ModelReply = Replied(content: Option<string>) | CallFailed(error: PyError)

  /** What the endpoint answers: the JSON body of a 200, or an HTTPException. */
  datatype Response =
    | Success(reportId: string, sheetUrl: string, damageReport: map<string, Value>)
    | HttpError(status: nat, detail: Value)

  /** The answer together with every Sheets API request the request caused. */
  datatype Handled = Handled(response: Response, sheetCalls: seq<SheetCall>)

  const AcceptedTypes: set<string> := {"image/jpeg", "image/png"}
  const BadTypeDetail: string := "Please upload a JPEG or PNG image."
  const NotACarDetail: string := "The uploaded image does not appear to be a car."
  const AnalysisFailedPrefix: string := "OpenAI analysis failed: "
  const SheetsFailedPrefix: string := "Writing to Google Sheets failed: "
  /** An HTTPException built with `detail=None` carries its status's reason phrase instead. */
  const BadRequestPhrase: string := "Bad Request"

  /** `analyze_car_damage(image_bytes)`: the report dict, or the exception it raises. */
  function Analysis(reply: ModelReply, parse: string -> Parsed): (r: Result<map<string, Value>, PyError>)
    ensures reply.CallFailed? ==> r == Err(reply.error)
    ensures r.Ok? <==> reply.Replied? && reply.content.Some? && parse(reply.content.value).Parsed?
                       && parse(reply.content.value).value.Obj?
    ensures r.Ok? ==> "is_car" in r.value && "notes" in r.value && "parts" in r.value
    ensures r.Ok? ==> forall k :: k in parse(reply.content.value).value.fields ==>
                        k in r.value && r.value[k] == parse(reply.content.value).value.fields[k]
  {
    match reply
    case CallFailed(e) => Err(e)
    case Replied(content) => AnalyzeContent(content, parse)
  }

  /** The handler. `reportId` stands for `str(uuid.uuid4())`. */
  function AnalyzeImage(contentType: string, check: ImageCheck, reportId: string, reply: ModelReply,
                        parse: string -> Parsed, config: SheetsConfig, env: SheetsEnv): (h: Handled)
    requires ValidConfig(config)
    ensures contentType !in AcceptedTypes ==> h == Handled(HttpError(400, Str(BadTypeDetail)), [])
    ensures h.response.HttpError? ==> h.response.detail != Null
    ensures h.sheetCalls != [] ==>
              && contentType in AcceptedTypes
              && check == ImageValid
              && Analysis(reply, parse).Ok?
              && Truthy(Get(Analysis(reply, parse).value, "is_car", Bool(false)))
              && h.sheetCalls == WriteDamageReport(config, env, reportId, Analysis(reply, parse).value).calls
    ensures h.response.Success? ==>
              && Analysis(reply, parse).Ok?
              && h.response.reportId == reportId
              && h.response.damageReport == Analysis(reply, parse).value
              && WriteDamageReport(config, env, reportId, h.response.damageReport).result == Ok(h.response.sheetUrl)
  {
    if contentType !in AcceptedTypes then
      Handled(HttpError(400, Str(BadTypeDetail)), [])
    else if check.ImageInvalid? then
      Handled(HttpError(400, Str(check.message)), [])
    else match Analysis(reply, parse)
      case Err(e) => Handled(HttpError(500, Str(AnalysisFailedPrefix + e.message)), [])
      case Ok(damageReport) =>
        if !Truthy(Get(damageReport, "is_car", Bool(false))) then
          var notes := Get(damageReport, "notes", Str(NotACarDetail));
          Handled(HttpError(400, if notes == Null then Str(BadRequestPhrase) else notes), [])
        else
          var written := WriteDamageReport(config, env, reportId, damageReport);
          match written.result
          case Err(e) => Handled(HttpError(500, Str(SheetsFailedPrefix + e.message)), written.calls)
          case Ok(sheetUrl) => Handled(Success(reportId, sheetUrl, damageReport), written.calls)
  }

  /** A failed image check is a 400 carrying the validator's message, whatever the
      model and the spreadsheet would have done. */
  lemma InvalidImageIs400(contentType: string, message: string, reportId: string, reply: ModelReply,
                          parse: string -> Parsed, config: SheetsConfig, env: SheetsEnv)
    requires ValidConfig(config) && contentType in AcceptedTypes
    ensures AnalyzeImage(contentType, ImageInvalid(message), reportId, reply, parse, config, env)
              == Handled(HttpError(400, Str(message)), [])
  {
  }

  /** Any failure of the analysis, including an undecodable reply, is a 500 whose detail
      starts with "OpenAI analysis failed: ". */
  lemma AnalysisFailureIs500(contentType: string, reportId: string, reply: ModelReply,
                             parse: string -> Parsed, config: SheetsConfig, env: SheetsEnv)
    requires ValidConfig(config) && contentType in AcceptedTypes
    requires Analysis(reply, parse).Err?
    ensures var h := AnalyzeImage(contentType, ImageValid, reportId, reply, parse, config, env);
            && h.sheetCalls == []
            && h.response == HttpError(500, Str(AnalysisFailedPrefix + Analysis(reply, parse).error.message))
  {
  }

  /** A reply that is not JSON ends in a 500 whose detail ends with the raw reply text. */
  lemma UndecodableReplyShowsRawText(contentType: string, reportId: string, text: string,
                                     parse: string -> Parsed, config: SheetsConfig, env: SheetsEnv)
    requires ValidConfig(config) && contentType in AcceptedTypes
    requires parse(text).DecodeError?
    ensures var h := AnalyzeImage(contentType, ImageValid, reportId, Replied(Some(text)), parse, config, env);
            && h.response.HttpError? && h.response.status == 500 && h.response.detail.Str?
            && var d := h.response.detail.s;
               |d| >= |text| && d[|d| - |text|..] == text
  {
    var m := ParseFailureMessage(parse(text).message, text);
    var d := AnalysisFailedPrefix + m;
    assert d[|d| - |text|..] == m[|m| - |text|..];
  }

  /** A report whose `is_car` is missing or falsy is a 400 that writes nothing; its
      detail is `notes` when present, the stock sentence when absent, and the status's
      reason phrase when `notes` is null. */
  lemma NotACarIs400(contentType: string, reportId: string, reply: ModelReply,
                     parse: string -> Parsed, config: SheetsConfig, env: SheetsEnv)
    requires ValidConfig(config) && contentType in AcceptedTypes
    requires Analysis(reply, parse).Ok? && !Truthy(Get(Analysis(reply, parse).value, "is_car", Bool(false)))
    ensures var report := Analysis(reply, parse).value;
            AnalyzeImage(contentType, ImageValid, reportId, reply, parse, config, env) ==
              Handled(HttpError(400, if "notes" !in report then Str(NotACarDetail)
                                     else if report["notes"] == Null then Str(BadRequestPhrase)
                                     else report["notes"]), [])
  {
  }

  /** Because the analysis fills in defaults, a reply without `is_car` is never a car
      and the not-a-car detail is the reply's `notes` ("" when it had none, the reason
      phrase when it is null), never the stock sentence. */
  lemma NotACarDetailComesFromNotes(contentType: string, reportId: string, text: string,
                                    parse: string -> Parsed, config: SheetsConfig, env: SheetsEnv)
    requires ValidConfig(config) && contentType in AcceptedTypes
    requires parse(text).Parsed? && parse(text).value.Obj?
    requires "is_car" !in parse(text).value.fields
    ensures var fields := parse(text).value.fields;
            AnalyzeImage(contentType, ImageValid, reportId, Replied(Some(text)), parse, config, env) ==
              Handled(HttpError(400, if "notes" !in fields then Str("")
                                     else if fields["notes"] == Null then Str(BadRequestPhrase)
                                     else fields["notes"]), [])
  {
  }

  /** A failing spreadsheet write is a 500 reporting the writer's exception. */
  lemma SheetFailureIs500(contentType: string, reportId: string, reply: ModelReply,
                          parse: string -> Parsed, config: SheetsConfig, env: SheetsEnv)
    requires ValidConfig(config) && contentType in AcceptedTypes
    requires Analysis(reply, parse).Ok? && Truthy(Get(Analysis(reply, parse).value, "is_car", Bool(false)))
    requires WriteDamageReport(config, env, reportId, Analysis(reply, parse).value).result.Err?
    ensures var h := AnalyzeImage(contentType, ImageValid, reportId, reply, parse, config, env);
            h.response == HttpError(500, Str(SheetsFailedPrefix
              + WriteDamageReport(config, env, reportId, Analysis(reply, parse).value).result.error.message))
  {
  }

  /** A car report whose write succeeds answers with the id given to the writer, the
      writer's link and the analysis dict unchanged. */
  lemma CarReportSucceeds(contentType: string, reportId: string, reply: ModelReply,
                          parse: string -> Parsed, config: SheetsConfig, env: SheetsEnv)
    requires ValidConfig(config) && contentType in AcceptedTypes
    requires Analysis(reply, parse).Ok? && Truthy(Get(Analysis(reply, parse).value, "is_car", Bool(false)))
    requires WriteDamageReport(config, env, reportId, Analysis(reply, parse).value).result.Ok?
    ensures AnalyzeImage(contentType, ImageValid, reportId, reply, parse, config, env).response ==
              Success(reportId, WriteDamageReport(config, env, reportId, Analysis(reply, parse).value).result.value,
                      Analysis(reply, parse).value)
  {
  }
}
