/** JSON values as the protocol code sees them: `True` and `1` differ, so do `1` and `1.0`. */
module Json {

  datatype Json =
    | Null
    | Bool(b: bool)
    | Int(i: int)
    | Float(f: real)
    | Str(s: string)
    | Arr(items: seq<Json>)
    | Obj(fields: map<string, Json>)

  datatype Tag = NullTag | BoolTag | IntTag | FloatTag | StrTag | ArrTag | ObjTag

  /** Python's `type(value)`. */
  function TagOf(v: Json): Tag {
    match v
    case Null => NullTag
    case Bool(_) => BoolTag
    case Int(_) => IntTag
    case Float(_) => FloatTag
    case Str(_) => StrTag
    case Arr(_) => ArrTag
    case Obj(_) => ObjTag
  }
}
