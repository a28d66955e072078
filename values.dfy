/** The JavaScript values the mapper reads from source objects and writes to destinations. */
module Values {
  import opened Wrappers
  import opened OrderedDict

  /**
   * A JavaScript value. Numbers are modelled as integers; an object that the mapper builds or
   * copies is a record of its own properties.
   */
  datatype Value =
    | Undefined
    | Null
    | Bool(b: bool)
    | Num(n: int)
    | Str(s: string)
    | Object(fields: map<string, Value>)

  /** JavaScript truthiness: `undefined`, `null`, `false`, `0` and `""` are falsy. */
  predicate Truthy(v: Value) {
    match v
    case Undefined => false
    case Null => false
    case Bool(b) => b
    case Num(n) => n != 0
    case Str(s) => s != ""
    case Object(_) => true
  }

  /** A source object: its own enumerable properties in enumeration order. */
  type SourceObject = s: Dict<Value> | DistinctKeys(s) witness []

  /** A destination object under construction: the properties assigned so far. */
  type Destination = map<string, Value>

  /** `sourceObject[name]`. */
  function Property(sourceObject: SourceObject, name: string): Value {
    Get(sourceObject, name).GetOr(Undefined)
  }
}
