/**
 * A decoded JSON or YAML document, as the decoders hand it to the accumulators
 * (Go's `any`), and the two parsers the accumulators consult.
 */
module Decoded {

  /** One decoded value; each case is one dynamic type the accumulators switch on. */
  datatype Any =
    | Null                          // nil
    | Bool(b: bool)                 // bool
    | Float64(isZero: bool)         // float64: only the comparison with 0 matters
    | Int(i: int)                   // int
    | Str(s: string)                // string
    | Number(text: string)          // json.Number, the decoder's literal text
    | Array(elems: seq<Any>)        // []any
    | Object(props: seq<Property>)  // map[string]any, in the order the map is iterated
    | Unrecognized                  // any other dynamic type: matched by no case

  /** One key/value pair of a decoded mapping. */
  datatype Property = Property(key: string, value: Any)

  /**
   * The two library parsers the accumulators call, given as predicates:
   * whether `time.Parse(time.RFC3339Nano, s)` succeeds (the date-time format of
   * section 5.6 of RFC 3339, with fractional seconds), and whether
   * `json.Number(s).Int64()` succeeds.
   */
  datatype Parsers = Parsers(parsesTime: string -> bool, parsesInt64: string -> bool)

  /** The seven kinds of value that have a counter, and NoKind for the rest. */
  datatype Kind = ArrayKind | BoolKind | Float64Kind | IntKind | NullKind | ObjectKind | StringKind | NoKind

  /** The kind a value is counted as; a number literal is an int iff it fits an int64. */
  function KindOf(a: Any, p: Parsers): Kind {
    match a
    case Null => NullKind
    case Bool(_) => BoolKind
    case Float64(_) => Float64Kind
    case Int(_) => IntKind
    case Str(_) => StringKind
    case Number(text) => if p.parsesInt64(text) then IntKind else Float64Kind
    case Array(_) => ArrayKind
    case Object(_) => ObjectKind
    case Unrecognized => NoKind
  }
}
