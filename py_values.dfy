/** The slice of Python's runtime the handlers depend on: the exceptions they
    can raise (and the text `str(err)` gives for each), the JSON-like values
    that arrive in an event, dictionary subscripts, and the `json` module as an
    oracle. */
module PyValues {

  datatype Option<+T> = None | Some(value: T)

  /** An exception as the handlers see it. */
  datatype Exc =
    | KeyError(key: string)        // a missing dictionary key
    | IndexError(text: string)     // an out-of-range list index
    | TypeError(text: string)      // an operation applied to a value of the wrong type
    | Raised(text: string)         // Exception(text), or an SDK/JSON error whose str() is text
    | UnboundLocal(name: string)   // a local variable read before it was assigned

  /** `str(err)`: a KeyError prints its key quoted, the others their message. */
  function Describe(e: Exc): (t: string)
    ensures e.KeyError? ==> |t| == |e.key| + 2 && t[0] == '\'' && t[|t| - 1] == '\'' && t[1..|t| - 1] == e.key
    ensures e.Raised? ==> t == e.text
  {
    match e
    case KeyError(k) => "'" + k + "'"
    case IndexError(t) => t
    case TypeError(t) => t
    case Raised(t) => t
    case UnboundLocal(n) => "cannot access local variable '" + n + "' where it is not associated with a value"
  }

  /** A value or the exception that was raised instead; usable with `:-`. */
  datatype Result<+T> = Ok(value: T) | Err(exc: Exc) {
    predicate IsFailure() { Err? }
    function PropagateFailure<U>(): Result<U>
      requires Err?
    {
      Err(exc)
    }
    function Extract(): T
      requires Ok?
    {
      value
    }
  }

  /** A decoded JSON value: strings, objects, arrays, and every other scalar
      (number, boolean, null) known only by its Python type name. */
  datatype Json =
    | Str(s: string)
    | Obj(fields: map<string, Json>)
    | Arr(items: seq<Json>)
    | Other(typeName: string)

  function TypeName(v: Json): string {
    match v
    case Str(_) => "str"
    case Obj(_) => "dict"
    case Arr(_) => "list"
    case Other(t) => t
  }

  /** `v[key]` with a string key. */
  function Index(v: Json, key: string): (r: Result<Json>)
    ensures r.Ok? <==> v.Obj? && key in v.fields
    ensures r.Ok? ==> r.value == v.fields[key]
    ensures v.Obj? && key !in v.fields ==> r == Err(KeyError(key))
  {
    match v
    case Obj(m) => if key in m then Ok(m[key]) else Err(KeyError(key))
    case Str(_) => Err(TypeError("string indices must be integers, not 'str'"))
    case Arr(_) => Err(TypeError("list indices must be integers or slices, not str"))
    case Other(t) => Err(TypeError("'" + t + "' object is not subscriptable"))
  }

  /** `key in v` for a dictionary. */
  predicate HasKey(v: Json, key: string) {
    v.Obj? && key in v.fields
  }

  /** The `json` module and `str()` on non-string values, as an oracle:
      `loads` parses a text (or raises JSONDecodeError), `dumps` renders a
      value, `str` is what `str(v)` gives for a value that is not a string. */
  datatype JsonLib = JsonLib(
    loads: string -> Result<Json>,
    dumps: Json -> string,
    str: Json -> string)

  /** `json.loads(v)`: only a string can be parsed. */
  function Loads(lib: JsonLib, v: Json): (r: Result<Json>)
    ensures v.Str? ==> r == lib.loads(v.s)
    ensures !v.Str? ==> r.Err? && r.exc.TypeError?
  {
    if v.Str? then lib.loads(v.s)
    else Err(TypeError("the JSON object must be str, bytes or bytearray, not " + TypeName(v)))
  }

  /** `str(v)`, as an f-string renders a value. */
  function PyStr(lib: JsonLib, v: Json): (r: string)
    ensures v.Str? ==> r == v.s
  {
    if v.Str? then v.s else lib.str(v)
  }
}
