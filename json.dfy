/**
 * The values a JSON request body or a JSON data file can hold, and the
 * JavaScript truthiness test that the directory's get-by-id handler applies to them.
 */
module Json {

  /** A JSON value. Numbers are exact reals: the rounding of IEEE doubles is not modelled. */
  datatype Value =
    | Null
    | Bool(b: bool)
    | Num(n: real)
    | Str(s: string)
    | Arr(items: seq<Value>)
    | Obj(fields: map<string, Value>)

  /**
   * JavaScript's `if (v)` on a value that came out of JSON: null, false, 0 and the
   * empty string are falsy; every array and every object (even an empty one) is truthy.
   */
  predicate Truthy(v: Value): (b: bool)
    ensures v.Arr? || v.Obj? ==> b
    ensures v.Null? ==> !b
  {
    match v
    case Null => false
    case Bool(b) => b
    case Num(n) => n != 0.0
    case Str(s) => s != ""
    case Arr(_) => true
    case Obj(_) => true
  }

  /** Every object is truthy, so a record sent as a JSON object can always be found again. */
  lemma ObjectsAreTruthy(fields: map<string, Value>)
    ensures Truthy(Obj(fields))
  {
  }

  /** Exactly four JSON values are falsy. */
  lemma FalsyValues(v: Value)
    ensures !Truthy(v) <==> v in {Null, Bool(false), Num(0.0), Str("")}
  {
  }
}
