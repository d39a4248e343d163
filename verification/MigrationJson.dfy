/** JSON values as the migration service sees them, and Python's conversions of them. */
module MigrationJson {
  import opened Text
  import opened Wrappers

  /** Floats are counted in millionths. */
  const ONE := 1_000_000

  datatype Json =
    | Null
    | Bool(b: bool)
    | Int(n: int)
    | Float(millionths: int)
    | Str(s: string)
    | List(items: seq<Json>)
    | Dict(fields: map<string, Json>)

  type Fields = map<string, Json>

  function Truthy(v: Json): bool {
    match v
    case Null => false
    case Bool(b) => b
    case Int(n) => n != 0
    case Float(f) => f != 0
    case Str(s) => s != ""
    case List(items) => items != []
    case Dict(fields) => fields != map[]
  }

  /** `payload.get(key)` */
  function Get(m: Fields, key: string): Json {
    if key in m then m[key] else Null
  }

  /** `value in (None, "", [])` */
  predicate IsBlank(v: Json) {
    v == Null || v == Str("") || v == List([])
  }

  /** What lies outside the model: the text of values that are no strings, the conversions
      `int` and `float` of values that are no numbers (None when they raise), and the
      registry of speech profiles. */
  datatype Python = Python(
    repr: Json -> string,
    toInt: Json -> Option<int>,
    toFloat: Json -> Option<int>,
    knownProfile: string -> bool)
  {
    function ToStr(v: Json): string {
      if v.Str? then v.s else repr(v)
    }

    function ToInt(v: Json): Option<int> {
      match v
      case Int(n) => Some(n)
      case Bool(b) => Some(if b then 1 else 0)
      case _ => toInt(v)
    }

    function ToFloat(v: Json): Option<int> {
      match v
      case Float(f) => Some(f)
      case Int(n) => Some(n * ONE)
      case Bool(b) => Some(if b then ONE else 0)
      case _ => toFloat(v)
    }

    /** `str(payload.get(key) or "").strip()` */
    function TextOf(field: Option<Json>): string {
      if field.Some? && Truthy(field.value) then Strip(ToStr(field.value)) else ""
    }
  }
}
