/** The shape of a request body after `express.json` has parsed it, as far
    as a schema check can observe it. `Undefined` is what a lookup of a
    missing key yields, and what the body is when nothing was parsed. */
module Json {

  datatype Value =
    | Undefined
    | Null
    | Bool(b: bool)
    | Number                          // numeric value not modelled
    | Str(s: string)
    | Array(items: seq<Value>)
    | Object(members: map<string, Value>)

  /** The type names a schema library reports as "received". */
  datatype Kind = UndefinedKind | NullKind | BooleanKind | NumberKind | StringKind | ArrayKind | ObjectKind

  function KindOf(v: Value): Kind {
    match v
    case Undefined => UndefinedKind
    case Null => NullKind
    case Bool(_) => BooleanKind
    case Number => NumberKind
    case Str(_) => StringKind
    case Array(_) => ArrayKind
    case Object(_) => ObjectKind
  }

  /** `obj[key]` on a parsed object: `undefined` when the key is absent. */
  function Member(members: map<string, Value>, key: string): (v: Value)
    ensures key !in members ==> v == Undefined
  {
    if key in members then members[key] else Undefined
  }
}
