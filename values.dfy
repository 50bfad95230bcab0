/** The dynamic values the library passes around as `interface{}`: BSON elements,
    documents and maps, plain scalars and the payloads of the JSON envelopes. */
module Values {
  import opened GoStd

  datatype Value =
    | Nil                                          // Go `nil`
    | Int(i: int)
    | Str(s: string)
    | Bool(b: bool)
    | Arr(items: seq<Value>)                       // a Go slice, or `bson.A`
    | Doc(elems: seq<Elem>)                        // `bson.D`: ordered key/value pairs
    | Obj(fields: map<string, Value>)              // `bson.M` or `map[string]interface{}`
    | PageResult(total: int64, results: Value)     // `*web.PageResult`
    | CursorResult(results: Value, cursor: string, hasMore: bool)  // `*web.CursorResult`
    | Opaque(id: nat)                              // any other application value

  /** `bson.E` */
  datatype Elem = E(key: string, value: Value)

  /** The keys of a `bson.D`, in order. */
  function Keys(d: seq<Elem>): (ks: seq<string>)
    ensures |ks| == |d|
    ensures forall i :: 0 <= i < |d| ==> ks[i] == d[i].key
  {
    if d == [] then [] else [d[0].key] + Keys(d[1..])
  }
}
