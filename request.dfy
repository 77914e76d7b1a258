/**
 * `Request` (src/lib/request.class.js): wraps one call to the Atom API. Its
 * constructor turns the payload into JSON text, `get`/`post` sign it and put it
 * on the wire, and every answer is brought to one `{message, status}` shape:
 * status 200 succeeds, the client- and server-error classes of section 6.5 and
 * 6.6 of RFC 7231 (400-599) fail with an AtomError. The HTTP call itself is not
 * modelled: each method receives the library's answer as a `Fetched` value and
 * returns the request it would have sent.
 */
module Request {
  import opened Utils

  /** The properties of a params object that the SDK reads or writes. A
      property the caller left out is the empty string (or false), which is
      falsy like `undefined`. */
  datatype Fields = Fields(
    endpoint: string,
    apiVersion: string,
    stream: string,
    data: Value,
    auth: string,
    httpMethod: string,
    bulk: bool)

  /** A params object. The SDK writes into the object the caller passed, so
      it is a heap object here too. */
  class Params {
    var v: Fields

    constructor(v: Fields)
      ensures this.v == v
    {
      this.v := v;
    }
  }

  const InvalidData := AtomError(Str("data is invalid - can't be stringified"), 400)
  const ConnectionProblem := AtomError(Str("Connection Problem"), 500)
  const ApiUp := Response(Str("Atom API is up"), 200)
  const ApiDown := Str("Atom API is down")

  /** The constructor's rule for `params.data`: a string is kept verbatim,
      anything else is replaced by its JSON text, and a value JSON cannot
      serialise makes the constructor throw. `undefined` stays `undefined`,
      because `JSON.stringify(undefined)` returns it instead of throwing. */
  function Stringified(data: Value, codec: Codec): (r: Result<Value, AtomError>)
    ensures data.Str? ==> r == Ok(data)
    ensures data == Undefined ==> r == Ok(Undefined)
    ensures r.Ok? ==> r.value.Str? || r.value == Undefined
    ensures r.Err? <==> !data.Str? && data != Undefined && codec.stringify(data).None?
    ensures r.Err? ==> r.error == InvalidData
    ensures r.Ok? && !data.Str? && data != Undefined ==> r.value == Str(codec.stringify(data).value)
  {
    if data.Str? || data == Undefined then Ok(data)
    else match codec.stringify(data)
      case Some(text) => Ok(Str(text))
      case None => Err(InvalidData)
  }

  /** `_createAuth`: with a non-empty key, the hex HMAC-SHA256 of the data text
      under that key; with none, the empty string. The crypto library throws a
      TypeError if asked to sign something that is not a string. */
  function Signature(key: string, data: Value, codec: Codec): (r: Result<string, Thrown>)
    ensures key == "" ==> r == Ok("")
    ensures key != "" && data.Str? ==> r == Ok(codec.hmacHex(key, data.s))
    ensures r.Err? <==> key != "" && !data.Str?
    ensures r.Err? ==> r.error == Foreign(TypeErrorValue)
  {
    if key == "" then Ok("")
    else if data.Str? then Ok(codec.hmacHex(key, data.s))
    else Err(Foreign(TypeErrorValue))
  }

  /** An error whose `name` is 'AtomError', which `_errorHandler` lets through. */
  predicate NamedAtomError(error: Thrown)
  {
    error.AtomErr? || Field(error.value, "name") == Str("AtomError")
  }

  predicate ConnectionRefused(error: Thrown)
  {
    error.Foreign? && Field(error.value, "code") == Str("ECONNREFUSED")
  }

  /** `_errorHandler`: the reason every failed request rejects with. */
  function ErrorHandler(error: Thrown): (r: Thrown)
    ensures NamedAtomError(error) ==> r == error
    ensures !NamedAtomError(error) && ConnectionRefused(error) ==> r == AtomErr(ConnectionProblem)
    ensures !NamedAtomError(error) && !ConnectionRefused(error) ==> r == AtomErr(AtomError(error.value, 400))
    ensures r.AtomErr? || r == error
  {
    if NamedAtomError(error) then error
    else if ConnectionRefused(error) then AtomErr(ConnectionProblem)
    else AtomErr(AtomError(error.value, 400))
  }

  /** Normalising a reason twice changes nothing more than normalising it once. */
  lemma ErrorHandlerIdempotent(error: Thrown)
    ensures ErrorHandler(ErrorHandler(error)) == ErrorHandler(error)
  {
  }

  /** How `get` and `post` settle once the HTTP library has answered. A 200
      reply resolves with the JSON text of its body; an `undefined` body gives an
      `undefined` message, since `JSON.stringify(undefined)` returns it. */
  function Settle(reply: Fetched, codec: Codec): (o: Outcome)
    ensures !o.Threw?
    ensures o.Resolved? && o.value.Some? ==> o.value.value.status == 200
    ensures reply.Replied? && reply.statusCode == 200 && reply.body == Undefined ==>
              o == Resolved(Some(Response(Undefined, 200)))
    ensures reply.Replied? && reply.statusCode == 200 && reply.body != Undefined && codec.stringify(reply.body).Some? ==>
              o == Resolved(Some(Response(Str(codec.stringify(reply.body).value), 200)))
    ensures reply.Replied? && reply.statusCode == 200 && reply.body != Undefined && codec.stringify(reply.body).None? ==>
              o == Rejected(AtomErr(AtomError(TypeErrorValue, 400)))
    ensures reply.Replied? && 400 <= reply.statusCode < 600 ==>
              o == Rejected(AtomErr(AtomError(reply.body, reply.statusCode)))
    ensures reply.Replied? && reply.statusCode != 200 && !(400 <= reply.statusCode < 600) ==>
              o == Resolved(None)
    ensures reply.Failed? ==> o == Rejected(ErrorHandler(Foreign(reply.error)))
  {
    match reply
    case Replied(status, body) =>
      if status == 200 then
        if body == Undefined then Resolved(Some(Response(Undefined, 200)))
        else match codec.stringify(body)
        case Some(text) => Resolved(Some(Response(Str(text), 200)))
        case None => Rejected(ErrorHandler(Foreign(TypeErrorValue)))
      else if 400 <= status < 600 then Rejected(ErrorHandler(AtomErr(AtomError(body, status))))
      else Resolved(None)
    case Failed(error) => Rejected(ErrorHandler(Foreign(error)))
  }

  /** Every AtomError a request rejects with carries a status of the client- or
      server-error class; a success always carries 200. */
  lemma {:induction false} SettledStatusClasses(reply: Fetched, codec: Codec)
    ensures var o := Settle(reply, codec);
      (o.Rejected? && o.reason.AtomErr? ==> 400 <= o.reason.error.status < 600) &&
      (o.Rejected? && !o.reason.AtomErr? ==> reply.Failed? && Field(reply.error, "name") == Str("AtomError"))
  {
    match reply
    case Replied(status, body) =>
    case Failed(error) =>
      assert Settle(reply, codec) == Rejected(ErrorHandler(Foreign(error)));
  }

  /** How `health` settles: up iff the status is 200. */
  function HealthSettle(reply: Fetched): (o: Outcome)
    ensures o.Resolved? <==> reply.Replied? && reply.statusCode == 200
    ensures o.Resolved? ==> o == Resolved(Some(ApiUp))
    ensures reply.Replied? && reply.statusCode != 200 ==>
              o == Rejected(AtomErr(AtomError(ApiDown, reply.statusCode)))
    ensures reply.Failed? ==> o == Rejected(ErrorHandler(Foreign(reply.error)))
  {
    match reply
    case Replied(status, _) =>
      if status == 200 then Resolved(Some(ApiUp))
      else Rejected(ErrorHandler(AtomErr(AtomError(ApiDown, status))))
    case Failed(error) => Rejected(ErrorHandler(Foreign(error)))
  }

  /** The JSON body `post` sends: exactly stream, auth, data and bulk. */
  function PostBody(f: Fields): Value
  {
    Obj([("stream", Str(f.stream)), ("auth", Str(f.auth)), ("data", f.data), ("bulk", Bool(f.bulk))])
  }

  /** The object whose JSON text, base64-encoded, is `get`'s `data` query parameter. */
  function GetPayload(f: Fields): Value
  {
    Obj([("data", f.data), ("stream", Str(f.stream)), ("auth", Str(f.auth))])
  }

  /** One round of a request: what went on the wire (None when the method
      threw first), how it ended, and the params object afterwards. */
  datatype Exchange = Exchange(call: Option<HttpCall>, outcome: Outcome, after: Fields)

  /** `post`: sign, send the body to `params.endpoint`, settle. */
  function PostExchange(f: Fields, reply: Fetched, codec: Codec): (x: Exchange)
    ensures Signature(f.auth, f.data, codec).Err? ==>
              x == Exchange(None, Threw(Foreign(TypeErrorValue)), f)
    ensures Signature(f.auth, f.data, codec).Ok? ==>
              var g := f.(auth := Signature(f.auth, f.data, codec).value);
              x == Exchange(Some(HttpCall(POST, f.endpoint, None, Some(PostBody(g)))), Settle(reply, codec), g)
  {
    match Signature(f.auth, f.data, codec)
    case Err(e) => Exchange(None, Threw(e), f)
    case Ok(sig) =>
      var g := f.(auth := sig);
      Exchange(Some(HttpCall(POST, g.endpoint, None, Some(PostBody(g)))), Settle(reply, codec), g)
  }

  /** `get`: sign, send the base64 of the JSON payload as query `data`, settle. */
  function GetExchange(f: Fields, reply: Fetched, codec: Codec): (x: Exchange)
    ensures Signature(f.auth, f.data, codec).Err? ==>
              x == Exchange(None, Threw(Foreign(TypeErrorValue)), f)
    ensures Signature(f.auth, f.data, codec).Ok? ==> x.after == f.(auth := Signature(f.auth, f.data, codec).value)
    ensures x.call.Some? <==>
              Signature(f.auth, f.data, codec).Ok? && codec.stringify(GetPayload(x.after)).Some?
    ensures x.call.Some? ==>
              x.call.value.verb == GET && x.call.value.url == f.endpoint && x.call.value.body.None? &&
              codec.stringify(GetPayload(x.after)).Some? &&
              x.call.value.query == Some(codec.base64(codec.stringify(GetPayload(x.after)).value)) &&
              x.outcome == Settle(reply, codec)
    ensures x.call.None? ==> x.outcome == Threw(Foreign(TypeErrorValue))
  {
    match Signature(f.auth, f.data, codec)
    case Err(e) => Exchange(None, Threw(e), f)
    case Ok(sig) =>
      var g := f.(auth := sig);
      match codec.stringify(GetPayload(g))
      case None => Exchange(None, Threw(Foreign(TypeErrorValue)), g)
      case Some(text) =>
        Exchange(Some(HttpCall(GET, g.endpoint, Some(codec.base64(text)), None)), Settle(reply, codec), g)
  }

  /** A signed request carries the signature of exactly the data it sends. */
  lemma {:induction false} PostCarriesSignedData(f: Fields, reply: Fetched, codec: Codec)
    requires f.data.Str?
    ensures var x := PostExchange(f, reply, codec);
      x.call.Some? && x.call.value.body.Some? &&
      Field(x.call.value.body.value, "data") == f.data &&
      Field(x.call.value.body.value, "auth") ==
        Str(if f.auth == "" then "" else codec.hmacHex(f.auth, f.data.s)) &&
      Field(x.call.value.body.value, "stream") == Str(f.stream) &&
      Field(x.call.value.body.value, "bulk") == Bool(f.bulk)
  {
    var sig := Signature(f.auth, f.data, codec).value;
    var fs := PostBody(f.(auth := sig)).fields;
    assert fs[1..] == [fs[1], fs[2], fs[3]];
    assert fs[2..] == [fs[2], fs[3]];
    assert fs[1..][1..] == fs[2..] && fs[2..][1..] == [fs[3]];
    assert FieldIn(fs, "stream") == Str(f.stream);
    assert FieldIn(fs, "auth") == FieldIn(fs[1..], "auth") == Str(sig);
    assert FieldIn(fs, "data") == FieldIn(fs[1..], "data") == FieldIn(fs[2..], "data") == f.data;
    assert FieldIn(fs, "bulk") == FieldIn(fs[1..], "bulk") == FieldIn(fs[2..], "bulk")
        == FieldIn([fs[3]], "bulk") == Bool(f.bulk);
  }

  class Request {
    const params: Params

    constructor(p: Params)
      ensures params == p
    {
      params := p;
    }

    /** `new Request(params)`: keeps the caller's params object and rewrites its
        `data` to text, or throws the "can't be stringified" AtomError. */
    static method Create(p: Params, codec: Codec) returns (r: Result<Request, AtomError>)
      modifies p
      ensures r.Ok? <==> Stringified(old(p.v.data), codec).Ok?
      ensures r.Ok? ==> fresh(r.value) && r.value.params == p &&
                        p.v == old(p.v).(data := Stringified(old(p.v.data), codec).value)
      ensures r.Err? ==> r.error == InvalidData && p.v == old(p.v)
    {
      match Stringified(p.v.data, codec)
      case Err(e) =>
        return Err(e);
      case Ok(text) =>
        p.v := p.v.(data := text);
        var rq := new Request(p);
        return Ok(rq);
    }

    /** `_createAuth`: overwrites `params.auth` (the key) with the signature. */
    method CreateAuth(codec: Codec) returns (error: Option<Thrown>)
      modifies params
      ensures var s := Signature(old(params.v.auth), old(params.v.data), codec);
        (s.Ok? ==> error == None && params.v == old(params.v).(auth := s.value)) &&
        (s.Err? ==> error == Some(s.error) && params.v == old(params.v))
    {
      match Signature(params.v.auth, params.v.data, codec)
      case Err(e) =>
        error := Some(e);
      case Ok(sig) =>
        params.v := params.v.(auth := sig);
        error := None;
    }

    /** `get()`. */
    method Get(reply: Fetched, codec: Codec) returns (call: Option<HttpCall>, o: Outcome)
      modifies params
      ensures Exchange(call, o, params.v) == GetExchange(old(params.v), reply, codec)
    {
      var error := CreateAuth(codec);
      if error.Some? {
        return None, Threw(error.value);
      }
      match codec.stringify(GetPayload(params.v))
      case None =>
        return None, Threw(Foreign(TypeErrorValue));
      case Some(text) =>
        call := Some(HttpCall(GET, params.v.endpoint, Some(codec.base64(text)), None));
        o := Settle(reply, codec);
    }

    /** `post()`. */
    method Post(reply: Fetched, codec: Codec) returns (call: Option<HttpCall>, o: Outcome)
      modifies params
      ensures Exchange(call, o, params.v) == PostExchange(old(params.v), reply, codec)
    {
      var error := CreateAuth(codec);
      if error.Some? {
        return None, Threw(error.value);
      }
      call := Some(HttpCall(POST, params.v.endpoint, None, Some(PostBody(params.v))));
      o := Settle(reply, codec);
    }

    /** `health()`: a GET to `endpoint + 'health'`; the params are not touched. */
    method Health(reply: Fetched) returns (call: HttpCall, o: Outcome)
      ensures call == HttpCall(GET, params.v.endpoint + "health", None, None)
      ensures o.Resolved? <==> reply.Replied? && reply.statusCode == 200
      ensures o == HealthSettle(reply)
    {
      call := HttpCall(GET, params.v.endpoint + "health", None, None);
      o := HealthSettle(reply);
    }
  }
}
