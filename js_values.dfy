// The JavaScript values the user registry handles: properties that may be
// undefined, Date objects, the loosely typed fields of a request body, and
// the truthiness that the `||` operator tests.

module JsValues {

  /** A property that is either assigned (Some) or still undefined (None). */
  datatype Option<T> = None | Some(value: T)

  /** A JavaScript Date object: an instant in milliseconds since the epoch,
      or an "Invalid Date" (whose time value is NaN). */
  datatype Date = Instant(epochMillis: int) | InvalidDate

  /** A value a field of a request body can hold at run time, whatever type
      the TypeScript declaration gives the field. Numbers are integers here.
      Plain objects and arrays, which a JSON body can also carry, have no
      variant of their own. */
  datatype Value =
    | Undefined
    | Null
    | Bool(b: bool)
    | Num(n: int)
    | Str(s: string)
    | DateObj(date: Date)

  /** `v === null || v === undefined` */
  predicate Nullish(v: Value) {
    v.Undefined? || v.Null?
  }

  /** JavaScript truthiness. Every object is truthy, an invalid Date too. */
  predicate Truthy(v: Value) {
    match v
    case Undefined => false
    case Null => false
    case Bool(b) => b
    case Num(n) => n != 0
    case Str(s) => s != ""
    case DateObj(_) => true
  }

  /** The expression `a || b`: the left operand when it is truthy, otherwise
      the right one. */
  function Or(a: Value, b: Value): (r: Value)
    ensures r == a || r == b
    ensures Truthy(r) <==> Truthy(a) || Truthy(b)
    ensures Truthy(a) ==> r == a
    ensures !Truthy(a) ==> r == b
  {
    if Truthy(a) then a else b
  }
}
