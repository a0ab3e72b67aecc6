/** Values as the backend sees them after `json.loads`: the Python objects a JSON
    document decodes to, with the bits of Python semantics the services rely on
    (truthiness, `dict.get`, type names in exception messages, `str()` of an int). */
module PyValues {

  datatype Option<+T> = None | Some(value: T)

  datatype Result<+T, +E> = Ok(value: T) | Err(error: E)

  /** The outcome of a call that returns nothing of interest. */
  datatype Outcome<+E> = Pass | Fail(error: E)

  /** A decoded JSON value. Numbers keep Python's int/float distinction because
      exception messages name the type. */
  datatype Value =
    | Null
    | Bool(b: bool)
    | Int(i: int)
    | Float(f: real)
    | Str(s: string)
    | Arr(items: seq<Value>)
    | Obj(fields: map<string, Value>)

  /** Python truthiness: None, False, 0, 0.0, "", [] and {} are falsy. */
  predicate Truthy(v: Value): (t: bool)
    ensures !t <==> v in {Null, Bool(false), Int(0), Float(0.0), Str(""), Arr([]), Obj(map[])}
  {
    match v
    case Null => false
    case Bool(b) => b
    case Int(i) => i != 0
    case Float(f) => f != 0.0
    case Str(s) => s != ""
    case Arr(items) => items != []
    case Obj(fields) => fields != map[]
  }

  /** The name `type(v).__name__` gives, as it appears in TypeError/AttributeError messages. */
  function TypeName(v: Value): string {
    match v
    case Null => "NoneType"
    case Bool(_) => "bool"
    case Int(_) => "int"
    case Float(_) => "float"
    case Str(_) => "str"
    case Arr(_) => "list"
    case Obj(_) => "dict"
  }

  /** `d.get(key, default)`. */
  function Get(d: map<string, Value>, key: string, default: Value): (r: Value)
    ensures key in d ==> r == d[key]
    ensures key !in d ==> r == default
  {
    if key in d then d[key] else default
  }

  /** A Python exception, by class, with the text `str(e)` gives. */
  datatype PyError =
    | RuntimeError(message: string)
    | RecursionError(message: string)
    | TypeError(message: string)
    | AttributeError(message: string)
    | ValueError(message: string)
    | ClientError(message: string)   // any exception raised by a remote client library

  /** `'<type>' object has no attribute '<name>'`. */
  function NoAttribute(v: Value, name: string): PyError {
    AttributeError("'" + TypeName(v) + "' object has no attribute '" + name + "'")
  }

  // ---------------------------------------------------------------------------
  // Decimal text, as `str(n)` and f-string interpolation render a non-negative int.

  predicate IsDigit(c: char) {
    '0' <= c <= '9'
  }

  predicate AllDigits(s: string) {
    forall i :: 0 <= i < |s| ==> IsDigit(s[i])
  }

  function DigitChar(d: nat): (c: char)
    requires d < 10
    ensures IsDigit(c) && c as int - '0' as int == d
  {
    ['0', '1', '2', '3', '4', '5', '6', '7', '8', '9'][d]
  }

  /** Decimal rendering of `n`, most significant digit first, no leading zeros. */
  function NatToString(n: nat): (s: string)
    ensures |s| >= 1 && AllDigits(s)
    ensures |s| > 1 ==> s[0] != '0'
  {
    if n < 10 then [DigitChar(n)] else NatToString(n / 10) + [DigitChar(n % 10)]
  }

  /** The value of a string of decimal digits; the reference reading of NatToString. */
  function ParseDigits(s: string): nat
    requires AllDigits(s)
  {
    if s == [] then 0
    else 10 * ParseDigits(s[..|s| - 1]) + (s[|s| - 1] as int - '0' as int)
  }

  lemma {:induction false} ParseNatToString(n: nat)
    ensures ParseDigits(NatToString(n)) == n
  {
    var s := NatToString(n);
    if n >= 10 {
      ParseNatToString(n / 10);
      assert s[..|s| - 1] == NatToString(n / 10);
    }
  }

  lemma NatToStringInjective(m: nat, n: nat)
    requires NatToString(m) == NatToString(n)
    ensures m == n
  {
    ParseNatToString(m);
    ParseNatToString(n);
  }
}
