/** Decoded JSON as both sides see it. Parsing and serialisation themselves
    are library calls and stay outside the model: a payload is the flat
    key/value object that one stdout line decodes to. */
module Json {
  import opened Wrappers

  /** One JSON value. `Other` stands for floats, arrays and nested objects,
      which no field of the protocol uses; it keeps only Python's truthiness. */
  datatype Value =
    | Str(s: string)
    | Int(i: int)
    | Bool(b: bool)
    | Null
    | Other(truthy: bool)

  /** A decoded JSON object (Swift `[String: Any]`, Python `dict`). */
  type Object = map<string, Value>

  // ---------------------------------------------------------------------
  // Swift side: `payload[key] as? T`
  // ---------------------------------------------------------------------

  /** `payload[key] as? String`. */
  function StringField(o: Object, key: string): (r: Option<string>)
    ensures r.Some? <==> key in o && o[key].Str?
    ensures r.Some? ==> o[key] == Str(r.value)
  {
    if key in o && o[key].Str? then Some(o[key].s) else None
  }

  /** `payload[key] as? Int`. */
  function IntField(o: Object, key: string): (r: Option<int>)
    ensures r.Some? <==> key in o && o[key].Int?
    ensures r.Some? ==> o[key] == Int(r.value)
  {
    if key in o && o[key].Int? then Some(o[key].i) else None
  }

  /** `payload[key] as? Bool`. */
  function BoolField(o: Object, key: string): (r: Option<bool>)
    ensures r.Some? <==> key in o && o[key].Bool?
    ensures r.Some? ==> o[key] == Bool(r.value)
  {
    if key in o && o[key].Bool? then Some(o[key].b) else None
  }

  // ---------------------------------------------------------------------
  // Python side
  // ---------------------------------------------------------------------

  /** `d.get(key, default)`. */
  function Get(o: Object, key: string, default: Value): Value {
    if key in o then o[key] else default
  }

  /** Python truthiness of a decoded value. */
  predicate Truthy(v: Value) {
    match v
    case Str(s) => s != []
    case Int(i) => i != 0
    case Bool(b) => b
    case Null => false
    case Other(t) => t
  }

  /** Python truthiness of a dict: it is non-empty. */
  predicate TruthyObject(o: Object) {
    o != map[]
  }

  /** `int(v)`, or `None` when it raises. */
  function ToInt(v: Value): Option<int> {
    match v
    case Int(i) => Some(i)
    case Bool(b) => Some(if b then 1 else 0)
    case _ => None
  }

  /** The `status` field the whole protocol turns on, as Swift reads it. */
  function Status(o: Object): Option<string> {
    StringField(o, "status")
  }
}
