/** What `analyze_car_damage` does with the model's reply text
    (backend/services/openai_service.py): decode it as JSON, raise with the raw text
    when that fails, and fill in `is_car`, `notes` and `parts` where the reply left
    them out. The request to the model is not part of this model; `json.loads` is the
    parameter `parse`. */
module ReplyDefaults {
  import opened PyValues

  /** What `json.loads(text)` gives: a value, the message of its JSONDecodeError, or any
      other exception it raises (a ValueError for an over-long integer, a RecursionError
      on deep nesting), which the `except JSONDecodeError` clause does not catch. */
  datatype Parsed = Parsed(value: Value) | DecodeError(message: string) | Raised(error: PyError)

  /** A Python dict that is updated in place. */
  class Dict {
    var entries: map<string, Value>

    constructor (entries: map<string, Value>)
      ensures this.entries == entries
    {
      this.entries := entries;
    }

    /** `d.setdefault(key, default)`: insert the default only when the key is absent,
        and return what the key now maps to. */
    method SetDefault(key: string, default: Value) returns (v: Value)
      modifies this
      ensures key in old(entries) ==> entries == old(entries)
      ensures key !in old(entries) ==> entries == old(entries)[key := default]
      ensures key in entries && v == entries[key]
    {
      if key !in entries {
        entries := entries[key := default];
      }
      v := entries[key];
    }
  }

  /** The decoded reply after the three `setdefault` calls. */
  function WithDefaults(data: map<string, Value>): (r: map<string, Value>)
    ensures r.Keys == data.Keys + {"is_car", "notes", "parts"}
    ensures forall k :: k in data ==> r[k] == data[k]
    ensures "is_car" !in data ==> r["is_car"] == Bool(false)
    ensures "notes" !in data ==> r["notes"] == Str("")
    ensures "parts" !in data ==> r["parts"] == Arr([])
  {
    var withIsCar := if "is_car" in data then data else data["is_car" := Bool(false)];
    var withNotes := if "notes" in withIsCar then withIsCar else withIsCar["notes" := Str("")];
    if "parts" in withNotes then withNotes else withNotes["parts" := Arr([])]
  }

  /** Filling defaults a second time changes nothing. */
  lemma WithDefaultsIdempotent(data: map<string, Value>)
    ensures WithDefaults(WithDefaults(data)) == WithDefaults(data)
  {
  }

  /** The text of the RuntimeError raised when the reply is not JSON. */
  function ParseFailureMessage(decodeError: string, content: string): (m: string)
    ensures |m| >= |content| && m[|m| - |content|..] == content
  {
    "Failed to parse JSON from OpenAI: " + decodeError + "\nRaw content: " + content
  }

  /** What `json.loads` raises when handed None instead of text; it is not a
      JSONDecodeError, so it escapes the `except` clause. */
  const NoContentError: PyError := TypeError("the JSON object must be str, bytes or bytearray, not NoneType")

  /** The post-reply part of `analyze_car_damage`: the completed report dict, or the
      exception it raises. */
  function AnalyzeContent(content: Option<string>, parse: string -> Parsed): (r: Result<map<string, Value>, PyError>)
    ensures r.Ok? <==> content.Some? && parse(content.value).Parsed? && parse(content.value).value.Obj?
    ensures content.None? ==> r == Err(NoContentError)
    ensures r.Ok? ==> r.value == WithDefaults(parse(content.value).value.fields)
    ensures r.Ok? ==> "is_car" in r.value && "notes" in r.value && "parts" in r.value
    ensures content.Some? && parse(content.value).DecodeError? ==>
              r == Err(RuntimeError(ParseFailureMessage(parse(content.value).message, content.value)))
    ensures content.Some? && parse(content.value).Raised? ==> r == Err(parse(content.value).error)
    ensures content.Some? && parse(content.value).Parsed? && !parse(content.value).value.Obj? ==>
              r == Err(NoAttribute(parse(content.value).value, "setdefault"))
  {
    match content
    case None => Err(NoContentError)
    case Some(text) =>
      match parse(text)
      case DecodeError(e) => Err(RuntimeError(ParseFailureMessage(e, text)))
      case Raised(e) => Err(e)
      case Parsed(Obj(data)) => Ok(WithDefaults(data))
      case Parsed(v) => Err(NoAttribute(v, "setdefault"))
  }

  /** The same steps as the source takes them: decode, then mutate the decoded dict. */
  method AnalyzeReply(content: Option<string>, parse: string -> Parsed)
    returns (r: Result<map<string, Value>, PyError>)
    ensures r == AnalyzeContent(content, parse)
  {
    if content.None? {
      return Err(NoContentError);
    }
    var parsed := parse(content.value);
    if parsed.DecodeError? {
      return Err(RuntimeError(ParseFailureMessage(parsed.message, content.value)));
    }
    if parsed.Raised? {
      return Err(parsed.error);
    }
    if !parsed.value.Obj? {
      return Err(NoAttribute(parsed.value, "setdefault"));
    }
    var data := new Dict(parsed.value.fields);
    var isCar := data.SetDefault("is_car", Bool(false));
    var notes := data.SetDefault("notes", Str(""));
    var parts := data.SetDefault("parts", Arr([]));
    r := Ok(data.entries);
  }
}
