/** JSON values, and the request body sent to the front end. */
module Json {
  import opened Wrappers

  type Bytes = seq<bv8>

  datatype Json =
    | Null
    | Bool(b: bool)
    | Num(n: real)
    | Str(s: string)
    | Arr(items: seq<Json>)
    | Obj(fields: map<string, Json>)

  type Object = map<string, Json>

  /** What decoding into a map[string]interface{} can meet. */
  datatype Decoded = Invalid | NullDocument | Document(fields: Object)

  /** encoding/json, left uninterpreted: `nil` is the encoding of a nil map. */
  datatype Codec = Codec(decode: Bytes -> Decoded, encode: Object -> Option<Bytes>, nil: Bytes)

  /** json.Unmarshal into a map variable: keeps entries the document does not mention. */
  function Unmarshal(codec: Codec, prev: Option<Object>, bytes: Bytes): Option<Object> {
    match codec.decode(bytes)
    case Invalid => prev
    case NullDocument => None
    case Document(fields) => Some((if prev.Some? then prev.value else map[]) + fields)
  }

  function Marshal(codec: Codec, m: Option<Object>): Option<Bytes> {
    if m.None? then Some(codec.nil) else codec.encode(m.value)
  }

  // ----- the copy of the request that goes to the front end -----

  const QUERY := "query_instance_id"

  /** The strings of a JSON array. */
  function Strings(items: seq<Json>): seq<string> {
    if items == [] then []
    else Strings(items[..|items| - 1]) + (if items[|items| - 1].Str? then [items[|items| - 1].s] else [])
  }

  function Annotations(nvext: Object): seq<string> {
    if "annotations" in nvext && nvext["annotations"].Arr? then Strings(nvext["annotations"].items) else []
  }

  function WithQuery(anns: seq<string>): seq<string> {
    if QUERY in anns then anns else anns + [QUERY]
  }

  function StrArray(strs: seq<string>): Json {
    Arr(seq(|strs|, i requires 0 <= i < |strs| => Str(strs[i])))
  }

  function NvExt(body: Object): Object {
    if "nvext" in body && body["nvext"].Obj? then body["nvext"].fields else map[]
  }

  function Annotated(nvext: Object): Object {
    nvext["annotations" := StrArray(WithQuery(Annotations(nvext)))]
  }

  /** The body posted to the front end. */
  function FrontEndBody(body: Object): Object {
    (if "stream" in body then body else body["stream" := Bool(true)])["nvext" := Obj(Annotated(NvExt(body)))]
  }

  /** What posting it leaves of the request: only a nested nvext map that was there is changed. */
  function AfterFrontEnd(body: Object): Object {
    if "nvext" in body && body["nvext"].Obj? then body["nvext" := Obj(Annotated(NvExt(body)))] else body
  }
}
