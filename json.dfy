/** The JSON values the inspector reads and writes (`serde_json::Value`).
    An object's keys are unique, so an object is a map from key to value. */
module Json {

  datatype Value =
    | Null
    | Bool(b: bool)
    | Number(n: int)
    | String(s: string)
    | Array(items: seq<Value>)
    | Object(fields: map<string, Value>)
}
