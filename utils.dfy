/**
 * Values shared by every part of the Atom SDK model: the JavaScript values the
 * SDK inspects, the `{message, status}` error and response shapes, what an HTTP
 * exchange looks like from the SDK's side, and the foreign functions (JSON text,
 * HMAC, base64) that the SDK calls but does not define.
 */
module Utils {

  datatype Option<+T> = None | Some(value: T)

  datatype Result<+T, +E> = Ok(value: T) | Err(error: E)

  /** A JavaScript value, as far as the SDK looks into one. Numbers are integers;
      an object keeps its keys in insertion order. */
  datatype Value =
    | Undefined
    | Null
    | Bool(b: bool)
    | Num(n: int)
    | Str(s: string)
    | Arr(items: seq<Value>)
    | Obj(fields: seq<(string, Value)>)

  /** JavaScript truthiness, `!!v`. */
  predicate Truthy(v: Value)
  {
    match v
    case Undefined => false
    case Null => false
    case Bool(b) => b
    case Num(n) => n != 0
    case Str(s) => s != ""
    case Arr(_) => true
    case Obj(_) => true
  }

  /** The property read `v[key]`: undefined unless `v` is an object holding `key`. */
  function Field(v: Value, key: string): Value
  {
    if v.Obj? then FieldIn(v.fields, key) else Undefined
  }

  function FieldIn(fields: seq<(string, Value)>, key: string): Value
  {
    if fields == [] then Undefined
    else if fields[0].0 == key then fields[0].1
    else FieldIn(fields[1..], key)
  }

  /** `AtomError` (code/src/lib/utils.js), and the plain `{message, status}`
      objects the earlier SDK rejects with. */
  datatype AtomError = AtomError(message: Value, status: int)

  /** Something a promise rejects with, or a statement throws: an AtomError, or
      any other JavaScript value (a library error object, a TypeError). */
  datatype Thrown = AtomErr(error: AtomError) | Foreign(value: Value)

  /** A successful `{message, status}` answer. */
  datatype Response = Response(message: Value, status: int)

  /** How a call to the SDK ends: its promise resolves (possibly with
      `undefined`), its promise rejects, or the call throws before it returns. */
  datatype Outcome =
    | Resolved(value: Option<Response>)
    | Rejected(reason: Thrown)
    | Threw(reason: Thrown)

  /** The `status` a rejection handler reads from what it caught. */
  function StatusOf(t: Thrown): Option<int>
  {
    match t
    case AtomErr(e) => Some(e.status)
    case Foreign(v) => if Field(v, "status").Num? then Some(Field(v, "status").n) else None
  }

  /** The error object JavaScript throws when a library is handed a value it cannot use. */
  const TypeErrorValue: Value := Obj([("name", Str("TypeError"))])

  /** What the HTTP library hands back for one request: a response with its
      status code and parsed body, or a transport error object. */
  datatype Fetched = Replied(statusCode: int, body: Value) | Failed(error: Value)

  datatype Verb = GET | POST

  /** The request the SDK puts on the wire: URL, and either a query-string
      `data` parameter (GET) or a JSON body (POST). */
  datatype HttpCall = HttpCall(verb: Verb, url: string, query: Option<string>, body: Option<Value>)

  /**
   * The foreign functions the SDK relies on, passed in rather than defined:
   *  - stringify: `JSON.stringify`; None stands for the call throwing;
   *  - hmacHex: the hex digest of HMAC-SHA256 (RFC 2104) under a key;
   *  - base64: base64 encoding (section 4 of RFC 4648) of a text.
   */
  datatype Codec = Codec(
    stringify: Value -> Option<string>,
    hmacHex: (string, string) -> string,
    base64: string -> string)
}
