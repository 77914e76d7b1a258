/**
 * The earlier SDK's `Request` (code/src/lib/request.class.js). Constructing
 * one performs the call: `'health'` probes the service, a params object is sent
 * by GET when its `method` is exactly 'GET' and by POST otherwise. Before
 * sending, `get` and `post` write the signature into `params.auth` and the
 * stream name into `params.table`. Any status of 400 or more is a failure.
 * The HTTP call is not modelled: the library's answer is a parameter.
 */
module LegacyRequest {
  import opened Utils

  /** A params object: its properties in the order JavaScript keeps them. */
  class Params {
    var fields: seq<(string, Value)>

    constructor(fields: seq<(string, Value)>)
      ensures this.fields == fields
    {
      this.fields := fields;
    }
  }

  /** The assignment `obj[key] = val`: an existing property keeps its place, a
      new one goes last. */
  function SetFieldIn(fields: seq<(string, Value)>, key: string, val: Value): (r: seq<(string, Value)>)
    ensures FieldIn(r, key) == val
    ensures forall k :: k != key ==> FieldIn(r, k) == FieldIn(fields, k)
  {
    if fields == [] then [(key, val)]
    else if fields[0].0 == key then [(key, val)] + fields[1..]
    else
      [fields[0]] + SetFieldIn(fields[1..], key, val)
  }

  const BulkGetRejected := AtomError(Str("Bad Request, Sending Bulks with GET is not allowed "), 400)
  const ConnectionProblem := AtomError(Str("Connection Problem"), 400)
  const ApiDown := Str("Atom API is down")
  const ApiUp := Str("Atom API is up")

  /** `auth := !!auth ? hmac(auth, data) : ''`. The crypto library throws a
      TypeError for a key or data that is not text, in which case the
      assignment does not happen. */
  function Signed(fields: seq<(string, Value)>, codec: Codec): (r: Result<seq<(string, Value)>, Thrown>)
    ensures !Truthy(FieldIn(fields, "auth")) ==> r == Ok(SetFieldIn(fields, "auth", Str("")))
    ensures Truthy(FieldIn(fields, "auth")) ==>
              (r.Ok? <==> FieldIn(fields, "auth").Str? && FieldIn(fields, "data").Str?)
    ensures Truthy(FieldIn(fields, "auth")) && FieldIn(fields, "auth").Str? && FieldIn(fields, "data").Str? ==>
              r == Ok(SetFieldIn(fields, "auth", Str(codec.hmacHex(FieldIn(fields, "auth").s, FieldIn(fields, "data").s))))
    ensures r.Err? ==> r.error == Foreign(TypeErrorValue)
  {
    var key := FieldIn(fields, "auth");
    var data := FieldIn(fields, "data");
    if !Truthy(key) then Ok(SetFieldIn(fields, "auth", Str("")))
    else if key.Str? && data.Str? then Ok(SetFieldIn(fields, "auth", Str(codec.hmacHex(key.s, data.s))))
    else Err(Foreign(TypeErrorValue))
  }

  /** What `get` and `post` both do first: sign, then copy the stream name
      into `table`. */
  function Prepared(fields: seq<(string, Value)>, codec: Codec): (r: Result<seq<(string, Value)>, Thrown>)
    ensures r.Ok? <==> Signed(fields, codec).Ok?
    ensures r.Ok? ==> FieldIn(r.value, "table") == FieldIn(fields, "stream") &&
                      FieldIn(r.value, "auth") == FieldIn(Signed(fields, codec).value, "auth")
    ensures r.Ok? ==> forall k :: k != "auth" && k != "table" ==> FieldIn(r.value, k) == FieldIn(fields, k)
  {
    match Signed(fields, codec)
    case Err(e) => Err(e)
    case Ok(g) => Ok(SetFieldIn(g, "table", FieldIn(g, "stream")))
  }

  /** The shared `.catch`: an error with a status of 400 or more passes
      through; anything else becomes the 400 "Connection Problem". */
  function Caught(error: Thrown): (r: Thrown)
    ensures StatusOf(error).Some? && StatusOf(error).value >= 400 ==> r == error
    ensures !(StatusOf(error).Some? && StatusOf(error).value >= 400) ==> r == AtomErr(ConnectionProblem)
  {
    if StatusOf(error).Some? && StatusOf(error).value >= 400 then error else AtomErr(ConnectionProblem)
  }

  /** How `get` and `post` settle: a status of 400 or more rejects with
      `{message: body, status}`, any other resolves with the same shape. */
  function Settle(reply: Fetched): (o: Outcome)
    ensures !o.Threw?
    ensures reply.Replied? && reply.statusCode >= 400 ==> o == Rejected(AtomErr(AtomError(reply.body, reply.statusCode)))
    ensures reply.Replied? && reply.statusCode < 400 ==> o == Resolved(Some(Response(reply.body, reply.statusCode)))
    ensures reply.Failed? ==> o == Rejected(Caught(Foreign(reply.error)))
  {
    match reply
    case Replied(status, body) =>
      if status >= 400 then Rejected(Caught(AtomErr(AtomError(body, status))))
      else Resolved(Some(Response(body, status)))
    case Failed(error) => Rejected(Caught(Foreign(error)))
  }

  /** `health`: down iff the status is 400 or more. */
  function HealthSettle(reply: Fetched): (o: Outcome)
    ensures !o.Threw?
    ensures o.Resolved? <==> reply.Replied? && reply.statusCode < 400
    ensures o.Resolved? ==> o == Resolved(Some(Response(ApiUp, reply.statusCode)))
    ensures reply.Replied? && reply.statusCode >= 400 ==> o == Rejected(AtomErr(AtomError(ApiDown, reply.statusCode)))
    ensures reply.Failed? ==> o == Rejected(Caught(Foreign(reply.error)))
  {
    match reply
    case Replied(status, _) =>
      if status >= 400 then Rejected(Caught(AtomErr(AtomError(ApiDown, status))))
      else Resolved(Some(Response(ApiUp, status)))
    case Failed(error) => Rejected(Caught(Foreign(error)))
  }

  /** Every rejection of the earlier SDK carries a status of 400 or more, and
      every success a status below 400. */
  lemma {:induction false} RejectionsCarryErrorStatus(reply: Fetched, health: bool)
    ensures var o := if health then HealthSettle(reply) else Settle(reply);
      (o.Rejected? ==> StatusOf(o.reason).Some? && StatusOf(o.reason).value >= 400) &&
      (o.Resolved? ==> o.value.Some? && o.value.value.status < 400)
  {
    match reply
    case Replied(status, _) =>
    case Failed(error) =>
      assert StatusOf(AtomErr(ConnectionProblem)) == Some(400);
  }

  /** One request: what was sent (None when it threw or was refused before
      any I/O), how it ended, and the params object afterwards. */
  datatype Exchange = Exchange(call: Option<HttpCall>, outcome: Outcome, after: seq<(string, Value)>)

  /** `get(endpoint)`. */
  function GetExchange(endpoint: string, fields: seq<(string, Value)>, reply: Fetched, codec: Codec): (x: Exchange)
    ensures Prepared(fields, codec).Err? ==> x == Exchange(None, Threw(Prepared(fields, codec).error), fields)
    ensures Prepared(fields, codec).Ok? ==> x.after == Prepared(fields, codec).value
    ensures Prepared(fields, codec).Ok? && !Truthy(FieldIn(fields, "bulk")) ==>
              var g := Prepared(fields, codec).value;
              (x.call.Some? <==> codec.stringify(Obj(g)).Some?) &&
              (x.call.Some? ==> x.call.value == HttpCall(GET, endpoint, Some(codec.base64(codec.stringify(Obj(g)).value)), None)) &&
              (x.call.None? ==> x.outcome == Threw(Foreign(TypeErrorValue)))
    ensures Prepared(fields, codec).Ok? && Truthy(FieldIn(fields, "bulk")) ==>
              x.call.None? && x.outcome == Rejected(AtomErr(BulkGetRejected))
    ensures x.call.Some? ==>
              (!Truthy(FieldIn(fields, "bulk")) && x.call.value.verb == GET &&
               x.call.value.url == endpoint && x.outcome == Settle(reply))
  {
    match Prepared(fields, codec)
    case Err(e) => Exchange(None, Threw(e), fields)
    case Ok(g) =>
      if Truthy(FieldIn(g, "bulk")) then Exchange(None, Rejected(AtomErr(BulkGetRejected)), g)
      else match codec.stringify(Obj(g))
        case None => Exchange(None, Threw(Foreign(TypeErrorValue)), g)
        case Some(text) => Exchange(Some(HttpCall(GET, endpoint, Some(codec.base64(text)), None)), Settle(reply), g)
  }

  /** The URL `post` targets. */
  function PostUrl(endpoint: string, fields: seq<(string, Value)>): string
  {
    if Truthy(FieldIn(fields, "bulk")) then endpoint + "/bulk" else endpoint
  }

  /** `post(endpoint)`: the whole params object is the body. */
  function PostExchange(endpoint: string, fields: seq<(string, Value)>, reply: Fetched, codec: Codec): (x: Exchange)
    ensures Prepared(fields, codec).Err? ==> x == Exchange(None, Threw(Foreign(TypeErrorValue)), fields)
    ensures Prepared(fields, codec).Ok? ==>
              var g := Prepared(fields, codec).value;
              x == Exchange(Some(HttpCall(POST, PostUrl(endpoint, fields), None, Some(Obj(g)))), Settle(reply), g)
  {
    match Prepared(fields, codec)
    case Err(e) => Exchange(None, Threw(e), fields)
    case Ok(g) => Exchange(Some(HttpCall(POST, PostUrl(endpoint, g), None, Some(Obj(g)))), Settle(reply), g)
  }

  /** A bulk POST goes to `endpoint + "/bulk"`, anything else to the endpoint
      itself, and the body carries the stream name under `table` too. */
  lemma PostTargetsBulkPath(endpoint: string, fields: seq<(string, Value)>, reply: Fetched, codec: Codec)
    requires Prepared(fields, codec).Ok?
    ensures var x := PostExchange(endpoint, fields, reply, codec);
      x.call.Some? && x.call.value.body.Some? &&
      (Truthy(FieldIn(fields, "bulk")) ==> x.call.value.url == endpoint + "/bulk") &&
      (!Truthy(FieldIn(fields, "bulk")) ==> x.call.value.url == endpoint) &&
      Field(x.call.value.body.value, "table") == FieldIn(fields, "stream")
  {
  }

  /** The constructor's method test: exactly 'GET', case-sensitive. */
  predicate IsGet(fields: seq<(string, Value)>)
  {
    FieldIn(fields, "method") == Str("GET")
  }

  /** What the constructor is given: the string 'health' or a params object. */
  datatype Target = HealthCheck | Call(params: Params)

  class Request {
    const params: Params

    constructor(p: Params)
      ensures params == p
    {
      params := p;
    }

    /** `get(endpoint)`: the params are written even when the bulk check then
        refuses the request. */
    method Get(endpoint: string, reply: Fetched, codec: Codec) returns (call: Option<HttpCall>, o: Outcome)
      modifies params
      ensures Exchange(call, o, params.fields) == GetExchange(endpoint, old(params.fields), reply, codec)
    {
      var prepared := Prepared(params.fields, codec);
      if prepared.Err? {
        return None, Threw(prepared.error);
      }
      params.fields := prepared.value;
      if Truthy(FieldIn(params.fields, "bulk")) {
        return None, Rejected(AtomErr(BulkGetRejected));
      }
      match codec.stringify(Obj(params.fields))
      case None =>
        return None, Threw(Foreign(TypeErrorValue));
      case Some(text) =>
        return Some(HttpCall(GET, endpoint, Some(codec.base64(text)), None)), Settle(reply);
    }

    /** `post(endpoint)`. */
    method Post(endpoint: string, reply: Fetched, codec: Codec) returns (call: Option<HttpCall>, o: Outcome)
      modifies params
      ensures Exchange(call, o, params.fields) == PostExchange(endpoint, old(params.fields), reply, codec)
    {
      var prepared := Prepared(params.fields, codec);
      if prepared.Err? {
        return None, Threw(prepared.error);
      }
      params.fields := prepared.value;
      var url := if Truthy(FieldIn(params.fields, "bulk")) then endpoint + "/bulk" else endpoint;
      return Some(HttpCall(POST, url, None, Some(Obj(params.fields)))), Settle(reply);
    }

    /** `new Request(endpoint, params)`: the call the constructor makes. */
    static method New(endpoint: string, target: Target, reply: Fetched, codec: Codec) returns (call: Option<HttpCall>, o: Outcome)
      modifies if target.Call? then {target.params} else {}
      ensures target.HealthCheck? ==>
        call == Some(HttpCall(GET, endpoint + "/health", None, None)) && o == HealthSettle(reply)
      ensures target.Call? && IsGet(old(target.params.fields)) ==>
        Exchange(call, o, target.params.fields) == GetExchange(endpoint, old(target.params.fields), reply, codec)
      ensures target.Call? && !IsGet(old(target.params.fields)) ==>
        Exchange(call, o, target.params.fields) == PostExchange(endpoint, old(target.params.fields), reply, codec)
    {
      match target
      case HealthCheck =>
        return Some(HttpCall(GET, endpoint + "/health", None, None)), HealthSettle(reply);
      case Call(p) =>
        var request := new Request(p);
        if IsGet(p.fields) {
          call, o := request.Get(endpoint, reply, codec);
        } else {
          call, o := request.Post(endpoint, reply, codec);
        }
    }
  }

  /** Unlike the later SDK, the method test is case-sensitive: 'get' posts. */
  lemma LowerCaseGetPosts(fields: seq<(string, Value)>)
    requires FieldIn(fields, "method") == Str("get")
    ensures !IsGet(fields)
  {
    assert "get" != "GET" by { assert "get"[0] != "GET"[0]; }
  }
}
