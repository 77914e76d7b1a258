/**
 * `IronSourceAtom` (src/lib/atom.class.js): the low-level client. It holds the
 * merged connection options and validates a caller's request before handing
 * it to a `Request`: `putEvent` sends one event by POST or GET, `putEvents` a
 * non-empty array by POST to the bulk endpoint, `health` probes the service.
 */
module Atom {
  import opened Utils
  import Request

  /** Defaults of src/config.js. */
  const END_POINT: string := "https://track.atom-data.io/"
  const API_VERSION: string := "V1"
  const AUTH: string := ""

  datatype Options = Options(endpoint: string, apiVersion: string, auth: string, debug: bool)

  /** Options a caller may pass; None is a key the caller did not set. */
  datatype UserOptions = UserOptions(
    endpoint: Option<string>,
    apiVersion: Option<string>,
    auth: Option<string>,
    debug: Option<bool>)

  function OrElse<T>(o: Option<T>, default: T): T
  {
    if o.Some? then o.value else default
  }

  /** The constructor's `Object.assign` of the defaults with the caller's
      options: each key the caller set wins, every other key keeps its default. */
  function MergeOptions(user: Option<UserOptions>): (o: Options)
    ensures user.None? ==> o == Options(END_POINT, API_VERSION, AUTH, false)
    ensures user.Some? && user.value.endpoint.Some? ==> o.endpoint == user.value.endpoint.value
    ensures (user.None? || user.value.endpoint.None?) ==> o.endpoint == END_POINT
    ensures user.Some? && user.value.apiVersion.Some? ==> o.apiVersion == user.value.apiVersion.value
    ensures (user.None? || user.value.apiVersion.None?) ==> o.apiVersion == API_VERSION
    ensures user.Some? && user.value.auth.Some? ==> o.auth == user.value.auth.value
    ensures (user.None? || user.value.auth.None?) ==> o.auth == AUTH
    ensures user.Some? && user.value.debug.Some? ==> o.debug == user.value.debug.value
    ensures (user.None? || user.value.debug.None?) ==> !o.debug
  {
    var u := OrElse(user, UserOptions(None, None, None, None));
    Options(OrElse(u.endpoint, END_POINT), OrElse(u.apiVersion, API_VERSION),
            OrElse(u.auth, AUTH), OrElse(u.debug, false))
  }

  /** `toUpperCase` on the ASCII letters; every other character is kept. */
  function UpperChar(c: char): char
  {
    if 'a' <= c <= 'z' then (c as int - 32) as char else c
  }

  function Upper(s: string): (r: string)
    ensures |r| == |s|
    ensures forall i :: 0 <= i < |s| ==> r[i] == UpperChar(s[i])
  {
    seq(|s|, i requires 0 <= i < |s| => UpperChar(s[i]))
  }

  /** The method test both operations apply: a non-empty method that reads
      "GET" once upper-cased. */
  predicate IsGet(httpMethod: string)
  {
    httpMethod != "" && Upper(httpMethod) == "GET"
  }

  /** Upper-casing `c` yields `u` exactly when `c` is `u` or its lower-case letter. */
  lemma UpperCharIs(c: char, u: char)
    requires 'A' <= u <= 'Z'
    ensures UpperChar(c) == u <==> c == u || c as int == u as int + 32
  {
  }

  /** The method test is case-insensitive and nothing else: "get", "Get",
      "gEt" and so on select GET, and no other text does. */
  lemma IsGetAnyCase(m: string)
    ensures IsGet(m) <==>
      |m| == 3 && (m[0] == 'G' || m[0] == 'g') && (m[1] == 'E' || m[1] == 'e') && (m[2] == 'T' || m[2] == 't')
  {
    if |m| == 3 {
      UpperCharIs(m[0], 'G');
      UpperCharIs(m[1], 'E');
      UpperCharIs(m[2], 'T');
      if (m[0] == 'G' || m[0] == 'g') && (m[1] == 'E' || m[1] == 'e') && (m[2] == 'T' || m[2] == 't') {
        assert Upper(m) == [Upper(m)[0], Upper(m)[1], Upper(m)[2]] == "GET";
      }
    }
  }

  const StreamRequired := AtomError(Str("Stream name is required"), 400)
  const DataRequired := AtomError(Str("Data is required"), 400)
  const DataNotArray := AtomError(Str("Data must a be a non-empty Array"), 400)
  const GetNotAllowed := AtomError(Str("GET is not a valid method for putEvents"), 400)

  /** `putEvent`'s checks, in the order it makes them. */
  function EventCheck(f: Request.Fields): (r: Option<AtomError>)
    ensures r.None? <==> f.stream != "" && Truthy(f.data)
    ensures f.stream == "" ==> r == Some(StreamRequired)
    ensures f.stream != "" && !Truthy(f.data) ==> r == Some(DataRequired)
  {
    if f.stream == "" then Some(StreamRequired)
    else if !Truthy(f.data) then Some(DataRequired)
    else None
  }

  /** `putEvents`'s checks, in the order it makes them. */
  function BulkCheck(f: Request.Fields): (r: Option<AtomError>)
    ensures r.None? <==> f.stream != "" && f.data.Arr? && |f.data.items| > 0 && !IsGet(f.httpMethod)
    ensures f.stream == "" ==> r == Some(StreamRequired)
    ensures f.stream != "" && !(f.data.Arr? && |f.data.items| > 0) ==> r == Some(DataNotArray)
    ensures f.stream != "" && f.data.Arr? && |f.data.items| > 0 && IsGet(f.httpMethod) ==> r == Some(GetNotAllowed)
  {
    if f.stream == "" then Some(StreamRequired)
    else if !f.data.Arr? || |f.data.items| == 0 then Some(DataNotArray)
    else if IsGet(f.httpMethod) then Some(GetNotAllowed)
    else None
  }

  /** The properties `putEvent` writes into the caller's params. */
  function EventFields(o: Options, f: Request.Fields): Request.Fields
  {
    f.(apiVersion := o.apiVersion, auth := o.auth, endpoint := o.endpoint, bulk := false)
  }

  /** The properties `putEvents` writes into its copy of the params. */
  function BulkFields(o: Options, f: Request.Fields): Request.Fields
  {
    f.(apiVersion := o.apiVersion, endpoint := o.endpoint + "bulk", auth := o.auth, bulk := true)
  }

  /** `putEvent`: reject on a failed check with the params untouched; otherwise
      overwrite the connection properties, build the request (which may throw)
      and send it by GET or POST. */
  function PutEventExchange(o: Options, f: Request.Fields, reply: Fetched, codec: Codec): (x: Request.Exchange)
    ensures EventCheck(f).Some? ==> x == Request.Exchange(None, Rejected(AtomErr(EventCheck(f).value)), f)
    ensures EventCheck(f).None? && Request.Stringified(f.data, codec).Err? ==>
              x == Request.Exchange(None, Threw(AtomErr(Request.InvalidData)), EventFields(o, f))
    ensures EventCheck(f).None? && Request.Stringified(f.data, codec).Ok? ==>
              var h := EventFields(o, f).(data := Request.Stringified(f.data, codec).value);
              var sig := Request.Signature(o.auth, h.data, codec);
              (sig.Err? ==> x == Request.Exchange(None, Threw(Foreign(TypeErrorValue)), h)) &&
              (sig.Ok? ==> x.after == h.(auth := sig.value))
    ensures EventCheck(f).None? && Request.Stringified(f.data, codec).Ok? &&
            Request.Signature(o.auth, Request.Stringified(f.data, codec).value, codec).Ok? ==>
              var text := Request.Stringified(f.data, codec).value;
              var g := EventFields(o, f).(data := text, auth := Request.Signature(o.auth, text, codec).value);
              (!IsGet(f.httpMethod) ==>
                 x == Request.Exchange(Some(HttpCall(POST, o.endpoint, None, Some(Request.PostBody(g)))),
                                       Request.Settle(reply, codec), g)) &&
              (IsGet(f.httpMethod) && codec.stringify(Request.GetPayload(g)).Some? ==>
                 x == Request.Exchange(Some(HttpCall(GET, o.endpoint,
                                                     Some(codec.base64(codec.stringify(Request.GetPayload(g)).value)), None)),
                                       Request.Settle(reply, codec), g)) &&
              (IsGet(f.httpMethod) && codec.stringify(Request.GetPayload(g)).None? ==>
                 x == Request.Exchange(None, Threw(Foreign(TypeErrorValue)), g))
    ensures x.call.Some? ==>
              (EventCheck(f).None? && Request.Stringified(f.data, codec).Ok? &&
               !x.after.bulk && x.after.apiVersion == o.apiVersion && x.after.endpoint == o.endpoint &&
               Request.Signature(o.auth, x.after.data, codec) == Ok(x.after.auth) &&
               (x.call.value.verb == GET <==> IsGet(f.httpMethod)) &&
               x.call.value.url == o.endpoint &&
               (x.call.value.verb == POST ==> x.call.value.body == Some(Request.PostBody(x.after))) &&
               x.outcome == Request.Settle(reply, codec))
  {
    if EventCheck(f).Some? then Request.Exchange(None, Rejected(AtomErr(EventCheck(f).value)), f)
    else
      var g := EventFields(o, f);
      match Request.Stringified(g.data, codec)
      case Err(e) => Request.Exchange(None, Threw(AtomErr(e)), g)
      case Ok(text) =>
        var h := g.(data := text);
        if IsGet(h.httpMethod) then Request.GetExchange(h, reply, codec)
        else Request.PostExchange(h, reply, codec)
  }

  /** `putEvents`: like `putEvent`, on a copy of the params, always by POST to
      the bulk endpoint. */
  function PutEventsExchange(o: Options, f: Request.Fields, reply: Fetched, codec: Codec): (x: Request.Exchange)
    ensures BulkCheck(f).Some? ==> x == Request.Exchange(None, Rejected(AtomErr(BulkCheck(f).value)), f)
    ensures BulkCheck(f).None? && Request.Stringified(f.data, codec).Err? ==>
              x == Request.Exchange(None, Threw(AtomErr(Request.InvalidData)), BulkFields(o, f))
    ensures BulkCheck(f).None? && Request.Stringified(f.data, codec).Ok? ==>
              var h := BulkFields(o, f).(data := Request.Stringified(f.data, codec).value);
              var sig := Request.Signature(o.auth, h.data, codec);
              (sig.Err? ==> x == Request.Exchange(None, Threw(Foreign(TypeErrorValue)), h)) &&
              (sig.Ok? ==> x == Request.Exchange(Some(HttpCall(POST, o.endpoint + "bulk", None,
                                   Some(Request.PostBody(h.(auth := sig.value))))),
                                 Request.Settle(reply, codec), h.(auth := sig.value)))
    ensures x.call.Some? ==> BulkCheck(f).None? && x.outcome == Request.Settle(reply, codec)
  {
    if BulkCheck(f).Some? then Request.Exchange(None, Rejected(AtomErr(BulkCheck(f).value)), f)
    else
      var g := BulkFields(o, f);
      match Request.Stringified(g.data, codec)
      case Err(e) => Request.Exchange(None, Threw(AtomErr(e)), g)
      case Ok(text) => Request.PostExchange(g.(data := text), reply, codec)
  }

  /** An accepted bulk is one POST to `endpoint + 'bulk'` whose body carries the
      JSON text of the array, `bulk: true`, the stream name, and the signature
      of that text under the client's auth key. */
  lemma {:induction false} BulkGoesToBulkEndpoint(o: Options, f: Request.Fields, reply: Fetched, codec: Codec)
    requires BulkCheck(f).None? && codec.stringify(f.data).Some?
    ensures var x := PutEventsExchange(o, f, reply, codec);
      x.call.Some? && x.call.value.verb == POST && x.call.value.url == o.endpoint + "bulk" &&
      x.call.value.body.Some? &&
      Field(x.call.value.body.value, "data") == Str(codec.stringify(f.data).value) &&
      Field(x.call.value.body.value, "bulk") == Bool(true) &&
      Field(x.call.value.body.value, "stream") == Str(f.stream) &&
      Field(x.call.value.body.value, "auth") ==
        Str(Request.Signature(o.auth, Str(codec.stringify(f.data).value), codec).value) &&
      x.outcome == Request.Settle(reply, codec)
  {
    var g := BulkFields(o, f).(data := Str(codec.stringify(f.data).value));
    Request.PostCarriesSignedData(g, reply, codec);
  }

  /** However it is spelled, GET is refused by `putEvents`. */
  lemma GetRefusedForBulks(f: Request.Fields)
    requires f.stream != "" && f.data.Arr? && |f.data.items| > 0
    requires f.httpMethod in {"GET", "get", "Get"}
    ensures BulkCheck(f) == Some(GetNotAllowed)
  {
    IsGetAnyCase(f.httpMethod);
  }

  /** The params `{}` a missing argument to `putEvents` stands for. */
  const NoFields := Request.Fields("", "", "", Undefined, "", "", false)

  class IronSourceAtom {
    const options: Options

    constructor(user: Option<UserOptions>)
      ensures options == MergeOptions(user)
    {
      options := MergeOptions(user);
    }

    /** `putEvent(params)`: the caller's params object is written into. */
    method PutEvent(p: Request.Params, reply: Fetched, codec: Codec) returns (call: Option<HttpCall>, o: Outcome)
      modifies p
      ensures Request.Exchange(call, o, p.v) == PutEventExchange(options, old(p.v), reply, codec)
    {
      var check := EventCheck(p.v);
      if check.Some? {
        return None, Rejected(AtomErr(check.value));
      }
      p.v := EventFields(options, p.v);
      var rq := Request.Request.Create(p, codec);
      if rq.Err? {
        return None, Threw(AtomErr(rq.error));
      }
      var request := rq.value;
      if IsGet(p.v.httpMethod) {
        call, o := request.Get(reply, codec);
      } else {
        call, o := request.Post(reply, codec);
      }
    }

    /** `putEvents(params)`: works on a copy, so the caller's object (null
        stands for a missing argument) is left as it was. */
    method PutEvents(p: Request.Params?, reply: Fetched, codec: Codec) returns (call: Option<HttpCall>, o: Outcome)
      ensures var x := PutEventsExchange(options, if p == null then NoFields else p.v, reply, codec);
        call == x.call && o == x.outcome
    {
      var copy := new Request.Params(if p == null then NoFields else p.v);
      var check := BulkCheck(copy.v);
      if check.Some? {
        return None, Rejected(AtomErr(check.value));
      }
      copy.v := BulkFields(options, copy.v);
      var rq := Request.Request.Create(copy, codec);
      if rq.Err? {
        return None, Threw(AtomErr(rq.error));
      }
      call, o := rq.value.Post(reply, codec);
    }

    /** `health()`: a fresh params object with only endpoint and API version. */
    method Health(reply: Fetched, codec: Codec) returns (call: HttpCall, o: Outcome)
      ensures call == HttpCall(GET, options.endpoint + "health", None, None)
      ensures o == Request.HealthSettle(reply)
    {
      var p := new Request.Params(Request.Fields(options.endpoint, options.apiVersion, "", Undefined, "", "", false));
      var rq := Request.Request.Create(p, codec);
      match rq
      case Err(_) =>
        assert false;
      case Ok(request) =>
        call, o := request.Health(reply);
    }
  }
}
