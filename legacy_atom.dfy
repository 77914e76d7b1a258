/**
 * The earlier `IronSourceAtom` (code/src/lib/atom.class.js), as far as the
 * earlier tracker uses it: `putEvents` checks its params, stamps the API
 * version and auth key into them and hands them to a `Request`. Its checks
 * report through `logger.err`, a name the earlier logger
 * (code/src/lib/logger.js) does not define; calling it throws a TypeError.
 * `PutEventsAsWritten` models the code as it stands and `PutEvents` the
 * evident intent, a report through `logger.error`, which only logs.
 */
module LegacyAtom {
  import opened Utils
  import LegacyRequest

  /** Defaults of code/src/config.js. */
  const API_VERSION: string := "V1"
  const END_POINT: string := "https://track.atom-data.io/"

  /** The client's `auth` and `endpoint` properties. */
  datatype Client = Client(auth: Value, endpoint: string)

  /** The constructor: a falsy auth key becomes '', a missing or empty
      endpoint the default one. */
  function Configured(auth: Value, endpoint: Option<string>): (c: Client)
    ensures Truthy(auth) ==> c.auth == auth
    ensures !Truthy(auth) ==> c.auth == Str("")
    ensures endpoint.Some? && endpoint.value != "" ==> c.endpoint == endpoint.value
    ensures endpoint.None? || endpoint.value == "" ==> c.endpoint == END_POINT
  {
    Client(if Truthy(auth) then auth else Str(""),
           if endpoint.Some? && endpoint.value != "" then endpoint.value else END_POINT)
  }

  /** What a call of `putEvents` comes to: a `Request` built for `endpoint` on
      the given params, a synchronous throw, or the logger's return value
      `undefined`. */
  datatype Dispatch =
    | ToRequest(endpoint: string, fields: seq<(string, Value)>)
    | Throws(error: Thrown)
    | LoggedOnly

  /** `data` is a non-empty array. */
  predicate NonEmptyArray(v: Value)
  {
    v.Arr? && |v.items| > 0
  }

  /** The two properties `putEvents` writes before building the `Request`. */
  function Stamped(c: Client, fields: seq<(string, Value)>): (r: seq<(string, Value)>)
    ensures FieldIn(r, "apiVersion") == Str(API_VERSION)
    ensures FieldIn(r, "auth") == c.auth
    ensures forall k :: k != "apiVersion" && k != "auth" ==> FieldIn(r, k) == FieldIn(fields, k)
  {
    LegacyRequest.SetFieldIn(LegacyRequest.SetFieldIn(fields, "apiVersion", Str(API_VERSION)), "auth", c.auth)
  }

  /** `putEvents` as written: a missing `table` and data that is not a
      non-empty array each reach `logger.err`, which throws. */
  function PutEventsAsWritten(c: Client, fields: seq<(string, Value)>): (d: Dispatch)
    ensures d.Throws? <==> !Truthy(FieldIn(fields, "table")) || !NonEmptyArray(FieldIn(fields, "data"))
    ensures d.Throws? ==> d.error == Foreign(TypeErrorValue)
    ensures !d.Throws? ==> d == ToRequest(c.endpoint, Stamped(c, fields))
  {
    if !Truthy(FieldIn(fields, "table")) then Throws(Foreign(TypeErrorValue))
    else if !NonEmptyArray(FieldIn(fields, "data")) then Throws(Foreign(TypeErrorValue))
    else ToRequest(c.endpoint, Stamped(c, fields))
  }

  /** `putEvents` with its reports through `logger.error`: a missing `table`
      is logged and the call goes on; bad data is logged and the call returns
      `undefined`. */
  function PutEvents(c: Client, fields: seq<(string, Value)>): (d: Dispatch)
    ensures !d.Throws?
    ensures d.LoggedOnly? <==> !NonEmptyArray(FieldIn(fields, "data"))
    ensures d.ToRequest? ==> d == ToRequest(c.endpoint, Stamped(c, fields))
  {
    if !NonEmptyArray(FieldIn(fields, "data")) then LoggedOnly
    else ToRequest(c.endpoint, Stamped(c, fields))
  }

  /** Where the two agree: with a `table`, the version as written does what
      the intended one does. */
  lemma AgreeGivenTable(c: Client, fields: seq<(string, Value)>)
    requires Truthy(FieldIn(fields, "table"))
    ensures PutEventsAsWritten(c, fields).Throws? <==> PutEvents(c, fields).LoggedOnly?
    ensures !PutEventsAsWritten(c, fields).Throws? ==> PutEventsAsWritten(c, fields) == PutEvents(c, fields)
  {
  }

  /** The params `{stream, data}` the earlier tracker's `_send` passes. */
  function SendParams(stream: string, batch: seq<Value>): seq<(string, Value)>
  {
    [("stream", Str(stream)), ("data", Arr(batch))]
  }

  /** The tracker's params hold `stream` and `data` and nothing else. */
  lemma SendParamsFields(stream: string, batch: seq<Value>)
    ensures FieldIn(SendParams(stream, batch), "stream") == Str(stream)
    ensures FieldIn(SendParams(stream, batch), "data") == Arr(batch)
    ensures forall k :: k != "stream" && k != "data" ==> FieldIn(SendParams(stream, batch), k) == Undefined
  {
    var p := SendParams(stream, batch);
    assert p[1..] == [("data", Arr(batch))];
    assert p[1..][1..] == [];
    forall k | k != "stream" && k != "data"
      ensures FieldIn(p, k) == Undefined
    {
      assert FieldIn(p, k) == FieldIn(p[1..], k) == FieldIn(p[1..][1..], k);
    }
  }

  /** As written, every send of the earlier tracker throws before any request
      is made: its params carry no `table`. */
  lemma TrackerSendThrows(c: Client, stream: string, batch: seq<Value>)
    ensures PutEventsAsWritten(c, SendParams(stream, batch)) == Throws(Foreign(TypeErrorValue))
  {
    SendParamsFields(stream, batch);
  }

  /** As intended, a send of a non-empty batch builds a `Request` for the
      client's endpoint that carries the stream, the batch, the API version
      and the auth key, and is sent by POST (its `method` is unset). */
  lemma TrackerSendReachesRequest(c: Client, stream: string, batch: seq<Value>)
    requires batch != []
    ensures var d := PutEvents(c, SendParams(stream, batch));
      d.ToRequest? && d.endpoint == c.endpoint &&
      FieldIn(d.fields, "stream") == Str(stream) && FieldIn(d.fields, "data") == Arr(batch) &&
      FieldIn(d.fields, "apiVersion") == Str(API_VERSION) && FieldIn(d.fields, "auth") == c.auth &&
      !LegacyRequest.IsGet(d.fields)
  {
    SendParamsFields(stream, batch);
  }
}
