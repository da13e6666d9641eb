/**
 * The Python objects that travel in a notification dictionary. Floats, bytes,
 * tuples and other objects are not among them. The codec only tests values for
 * truth and for being a string, so it would treat any of them as it treats a
 * non-string `Value` with the same truth value.
 */
module PyValues {
  import IsoDateTime

  datatype Value =
    | PyNone
    | PyBool(b: bool)
    | PyInt(i: int)
    | PyStr(s: string)
    | PyUuid(bits: nat)
    | PyDateTime(dt: IsoDateTime.DateTime)
    | PyList(items: seq<Value>)
    | PyDict(entries: map<string, Value>)

  /**
   * Python truth testing: `None`, `False`, `0`, empty strings and empty
   * containers are false; `uuid.UUID` and `datetime` objects are always true.
   */
  predicate Truthy(v: Value) {
    match v
    case PyNone => false
    case PyBool(b) => b
    case PyInt(i) => i != 0
    case PyStr(s) => s != ""
    case PyUuid(_) => true
    case PyDateTime(_) => true
    case PyList(items) => items != []
    case PyDict(entries) => entries != map[]
  }
}
