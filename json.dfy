/** The JSON values the server routes receive, store and send back. */
module Json {

  datatype Value =
    | Null
    | Bool(b: bool)
    | Number(n: int)
    | Str(s: string)
    | Date(millis: int)
    | Array(items: seq<Value>)
    | Object(fields: map<string, Value>)

  /** A JSON object: request bodies and stored records. */
  type Record = map<string, Value>

  /** JavaScript truthiness; a missing key reads `undefined`, which is falsy too. */
  predicate Truthy(v: Value)
  {
    match v
    case Null => false
    case Bool(b) => b
    case Number(n) => n != 0
    case Str(s) => s != ""
    case Date(_) => true
    case Array(_) => true
    case Object(_) => true
  }

  predicate HasTruthy(r: Record, key: string)
  {
    key in r && Truthy(r[key])
  }

  /** An HTTP response: its status code and JSON body. */
  datatype Response = Response(status: int, body: Record)

  function ErrorBody(message: string): Record
  {
    map["error" := Str(message)]
  }
}
