/** Decoded JSON values as the test-management service sends and receives them,
    with the few Python dictionary and truthiness idioms the client relies on. */
module Json {

  datatype Option<+T> = None | Some(value: T)

  /** A decoded JSON document. */
  datatype Value =
    | Null
    | Bool(b: bool)
    | Int(n: int)
    | Str(s: string)
    | Arr(items: seq<Value>)
    | Obj(fields: map<string, Value>)

  /** Errors the client raises instead of answering. */
  datatype Error =
    | UnknownArguments(kwargs: map<string, Value>)  // SyntaxWarning from raise_on_kwargs_not_empty
    | MissingKey(key: string)                        // KeyError on a dictionary lookup

  datatype Result<+T> = Success(value: T) | Failure(error: Error)

  /** Python's truth value of a decoded JSON value. */
  predicate Truthy(v: Value)
  {
    match v
    case Null => false
    case Bool(b) => b
    case Int(n) => n != 0
    case Str(s) => s != ""
    case Arr(xs) => xs != []
    case Obj(m) => m != map[]
  }

  /** Python's `a or b`. */
  function Or(a: Value, b: Value): Value
  {
    if Truthy(a) then a else b
  }

  /** Python's `d.get(key)`: null when the key is absent. */
  function Get(d: map<string, Value>, key: string): Value
  {
    if key in d then d[key] else Null
  }

  /** The entry a dictionary holds for `key`, if any. */
  function Slot(d: map<string, Value>, key: string): Option<Value>
  {
    if key in d then Some(d[key]) else None
  }

  /** Python's `d.get(key, default)`. */
  function GetOr(d: map<string, Value>, key: string, default: Value): Value
  {
    if key in d then d[key] else default
  }

  /** The dictionary inside a value; anything else reads as `{}`. */
  function Rec(v: Value): map<string, Value>
  {
    if v.Obj? then v.fields else map[]
  }

  /** The list inside a value; anything else reads as `[]`. */
  function ListOf(v: Value): seq<Value>
  {
    if v.Arr? then v.items else []
  }

  /** The string inside a value; anything else reads as `""`. */
  function StrOf(v: Value): string
  {
    if v.Str? then v.s else ""
  }

  /** `request.json() if request else {}`: the record an answer carries. */
  function RecordOf(answer: Option<Value>): map<string, Value>
  {
    if answer.Some? then Rec(answer.value) else map[]
  }

  /** Python's `x or None` for a caller-supplied string. */
  function StrOrNull(s: string): Value
  {
    if s == "" then Null else Str(s)
  }

  /** A list of strings as a JSON array. */
  function StrList(xs: seq<string>): (r: seq<Value>)
    ensures |r| == |xs|
    ensures forall i :: 0 <= i < |xs| ==> r[i] == Str(xs[i])
  {
    if xs == [] then [] else [Str(xs[0])] + StrList(xs[1..])
  }

  /** A list of records as a JSON array. */
  function ObjList(xs: seq<map<string, Value>>): (r: seq<Value>)
    ensures |r| == |xs|
  {
    if xs == [] then [] else [Obj(xs[0])] + ObjList(xs[1..])
  }

  /** `[x[field] for x in xs]` */
  function FieldValues(xs: seq<Value>, field: string): (values: seq<Value>)
    ensures |values| == |xs|
    ensures forall i :: 0 <= i < |xs| ==> values[i] == Get(Rec(xs[i]), field)
  {
    if xs == [] then [] else [Get(Rec(xs[0]), field)] + FieldValues(xs[1..], field)
  }
}
