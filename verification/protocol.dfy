/**
  The INDIGO JSON protocol as values: a JSON document datatype, Python's
  truthiness and `dict.get` over it, an abstract line codec standing for
  `json.dumps`/`json.loads`, and the outbound property-vector commands the
  controllers hand to the client.
*/
module Protocol {
  import opened Wrappers
  import opened Text

  /** A decoded JSON document. Objects are keyed maps (a repeated key keeps its last value, as `json.loads` does). */
  datatype Json =
    | JNull
    | JBool(b: bool)
    | JNum(n: real)
    | JStr(s: string)
    | JArr(elems: seq<Json>)
    | JObj(fields: map<string, Json>)

  /** Python's `bool(v)` for a decoded JSON value. */
  predicate Truthy(v: Json) {
    match v
    case JNull => false
    case JBool(b) => b
    case JNum(n) => n != 0.0
    case JStr(s) => s != ""
    case JArr(e) => e != []
    case JObj(f) => f != map[]
  }

  /** Python's `d.get(key)`: a missing key and an explicit `null` both read as `None`. */
  function Get(fields: map<string, Json>, key: string): (v: Json)
    ensures key !in fields ==> v == JNull
    ensures key in fields ==> v == fields[key]
  {
    if key in fields then fields[key] else JNull
  }

  /** The text codec of one message: `json.dumps` and `json.loads`. */
  datatype Codec = Codec(encode: Json -> string, decode: string -> Option<Json>)

  /** An encoded message can travel as one line: no newline inside, no whitespace to strip at its ends. */
  predicate LineSafe(e: string) {
    '\n' !in e && Trimmed(e)
  }

  /** What the client relies on from `json.dumps`/`json.loads` for a message it sends: it decodes back to itself and is line safe. */
  predicate RoundTrips(c: Codec, j: Json) {
    LineSafe(c.encode(j)) && c.decode(c.encode(j)) == Some(j)
  }

  /** An outbound message, as built by the mount and focuser controllers. */
  datatype Command =
    | NewNumberVector(device: string, name: string, numbers: seq<(string, real)>)
    | NewSwitchVector(device: string, name: string, switches: seq<(string, bool)>)
    | GetProperties(device: string, name: string)
    | SetProperties(device: string, name: string, elements: map<string, Json>)

  /** The dictionary the controllers pass to `send` for a command. */
  function ToJson(c: Command): Json {
    match c
    case NewNumberVector(d, n, items) =>
      JObj(map["newNumberVector" := JObj(map["device" := JStr(d), "name" := JStr(n), "items" :=
        JArr(seq(|items|, i requires 0 <= i < |items| =>
          JObj(map["name" := JStr(items[i].0), "value" := JNum(items[i].1)])))])])
    case NewSwitchVector(d, n, items) =>
      JObj(map["newSwitchVector" := JObj(map["device" := JStr(d), "name" := JStr(n), "items" :=
        JArr(seq(|items|, i requires 0 <= i < |items| =>
          JObj(map["name" := JStr(items[i].0), "value" := JBool(items[i].1)])))])])
    case GetProperties(d, n) =>
      JObj(map["getProperties" := JObj(map["device" := JStr(d), "name" := JStr(n)])])
    case SetProperties(d, n, els) =>
      JObj(map["setProperties" := JObj(map["device" := JStr(d), "name" := JStr(n), "elements" := JObj(els)])])
  }
}
