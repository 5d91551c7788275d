/** The dynamically typed values the backend passes around in `Dict[str, Any]`
    fields (message metadata, character info, command updates, request
    bodies), with Python's truthiness. */
module Values {
  import opened Wrappers
  import Text

  datatype Value =
    | Null
    | Bool(b: bool)
    | Int(i: int)
    | Real(r: real)
    | Str(s: string)
    | List(items: seq<Value>)
    | Obj(fields: map<string, Value>)

  /** Python's `bool(v)`: `None`, `False`, zero and empty containers are false. */
  predicate Truthy(v: Value) {
    match v
    case Null => false
    case Bool(b) => b
    case Int(i) => i != 0
    case Real(r) => r != 0.0
    case Str(s) => s != []
    case List(items) => items != []
    case Obj(fields) => fields != map[]
  }

  /** `Optional[str]` as a value: `None` becomes `Null`. */
  function OptStr(o: Option<string>): Value {
    match o
    case None => Null
    case Some(s) => Str(s)
  }

  /** Python's `d.get(k)` on a dict: the stored value, or `None`. */
  function Get(d: map<string, Value>, k: string): (v: Value)
    ensures k in d ==> v == d[k]
    ensures k !in d ==> v == Null
  {
    if k in d then d[k] else Null
  }

  /** Python's `str(v)`: text is itself, integers their decimal digits,
      `None`/`True`/`False` their names; floats, lists and dicts go through
      the given `repr`-style renderer, which is not modelled. */
  function PyStr(v: Value, renderOther: Value -> string): string {
    match v
    case Null => "None"
    case Bool(b) => if b then "True" else "False"
    case Int(i) => Text.IntToString(i)
    case Str(s) => s
    case _ => renderOther(v)
  }

  /** The name Python reports for the type of `v`. */
  function PyTypeName(v: Value): string {
    match v
    case Null => "NoneType"
    case Bool(_) => "bool"
    case Int(_) => "int"
    case Real(_) => "float"
    case Str(_) => "str"
    case List(_) => "list"
    case Obj(_) => "dict"
  }
}
