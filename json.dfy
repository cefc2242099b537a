/** The untyped documents the schemas check: a manifest, a status record or an
    agent's output, after YAML or JSON decoding. */
module Json {

  /** A decoded JSON/YAML value. JavaScript numbers are only ever compared
      against bounds by the schemas, so they are modelled as reals. */
  datatype Json =
    | JNull
    | JBool(b: bool)
    | JNum(n: real)
    | JStr(s: string)
    | JArr(items: seq<Json>)
    | JObj(props: map<string, Json>)

  /** The JavaScript runtime type a schema looks at before anything else. */
  datatype Kind = NullKind | BoolKind | NumKind | StrKind | ArrKind | ObjKind

  function KindOf(j: Json): Kind
  {
    match j
    case JNull => NullKind
    case JBool(_) => BoolKind
    case JNum(_) => NumKind
    case JStr(_) => StrKind
    case JArr(_) => ArrKind
    case JObj(_) => ObjKind
  }

  /** The value stored under `key`, when `j` is an object that has it. */
  function Get(j: Json, key: string): Option<Json>
  {
    if j.JObj? && key in j.props then Some(j.props[key]) else None
  }

  datatype Option<+T> = None | Some(value: T)

  // Vocabulary for stating what a schema demands of one key of an object.

  predicate StrAt(m: map<string, Json>, key: string)
  {
    key in m && m[key].JStr?
  }

  predicate BoolAt(m: map<string, Json>, key: string)
  {
    key in m && m[key].JBool?
  }

  /** A string drawn from a closed list of values. */
  predicate OneOf(x: Json, options: seq<string>)
  {
    x.JStr? && x.s in options
  }

  /** An array whose every element is a string. */
  predicate StrArray(x: Json)
  {
    x.JArr? && forall i | 0 <= i < |x.items| :: x.items[i].JStr?
  }

  /** An integer-valued number no smaller than `low`. */
  predicate IntAtLeast(x: Json, low: int)
  {
    x.JNum? && x.n == x.n.Floor as real && low as real <= x.n
  }

  /** A number in the closed interval [0, 1]. */
  predicate UnitInterval(x: Json)
  {
    x.JNum? && 0.0 <= x.n <= 1.0
  }
}
