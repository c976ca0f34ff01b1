/** The Python values (`Any`) that flow through messages and the context store. */
module Values {

  /** A plain Python value. Dictionaries are keyed by strings, as every
      `Dict[str, Any]` of the system is; a dictionary is how a scope is stored. */
  datatype Value =
    | VNone
    | VBool(b: bool)
    | VInt(i: int)
    | VStr(s: string)
    | VList(items: seq<Value>)
    | VDict(entries: map<string, Value>)

  /** Python's `str(x)`. Its text depends on the interpreter (dictionary
      insertion order, object representations), so every operation that uses
      it receives it as a parameter of this type. */
  type Renderer = Value -> string
}
