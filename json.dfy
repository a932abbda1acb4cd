/** The JSON values exchanged between the browser client and the echo server.
    Numbers are integers: every number the benchmark puts on the wire (ids,
    millisecond timestamps) is one. */
module Json {

  datatype Value =
    | Null
    | Bool(b: bool)
    | Num(n: int)
    | Str(s: string)
    | Arr(items: seq<Value>)
    | Obj(fields: map<string, Value>)
  {
    /** The member `key` of an object, if it has one. */
    function Member(key: string): Value
      requires Obj?
    {
      if key in fields then fields[key] else Null
    }
  }
}
