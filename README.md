# ironSource.atom Node.js SDK — a Dafny model of the event tracker

The SDK sends events to the ironSource.atom data service. Callers `track`
events on named streams. A `Tracker` buffers them per stream in a
`LocalStore` backlog. It sends a stream's whole backlog as one bulk when the
backlog is long enough, large enough or old enough, or when asked to flush.
Bulks go out through `IronSourceAtom.putEvents`, which validates its
parameters and builds a `Request`. A `Request` signs the data with an HMAC,
sends it by GET or POST, and classifies the answer by status code. A bulk
that meets a server error (status 500 or more) is retried.

The repository holds two generations of this code, and both are modelled:

- the later SDK under `src/lib/`, in modules `Storage`, `Request`, `Atom` and `Tracking`;
- the earlier prototype under `code/src/lib/`, in modules `Stores`, `LegacyRequest`, `LegacyAtom` (its `putEvents` only) and `LegacyTracking`.

`Utils` holds the shared vocabulary:

- JavaScript values and their truthiness;
- the `{message, status}` error shape of the SDK;
- the three ways a call can end: resolved, rejected, or thrown synchronously.

How the model is built:

- **Mutable objects are classes.** The backlogs, the trackers, the requests and the params objects whose fields the code overwrites are classes: their mutable fields are `var`s and their methods carry `modifies` clauses.
- **Pure decisions are functions.** Validation, status classification, option merging and the flush test are functions with named results. Lemmas connect them.
- **Every method has a specification function.** Each method is proved equal to a function of the old state, and the properties are proved about that function:
  - `Tracking.Tracker.Process` against `Tracking.Processed`;
  - `Tracking.Tracker.Send` against `Tracking.SendSpec`;
  - `LegacyTracking.Tracker.FlushAll` against `LegacyTracking.FlushedAll` and `LegacyTracking.TakenAll`.

Outside influences are parameters:

- **Server answers.** `net(stream, n)` is how attempt `n` (from 1) of a send to `stream` ends. For the later SDK this is the raw HTTP answer, which the model then classifies. For the earlier SDK it is the settled `putEvents` promise.
- **Time.** The current time is a `now` argument.
- **Foreign libraries.** The byte size of a bulk (`object-sizeof`) is a `sizeOf` function. `JSON.stringify`, HMAC-SHA256 and base64 are the fields of a `Codec` value.
- **The error callback.** The later tracker's `onError` is the log `reported`, which lists the values it was called with.

Where the code and its documentation disagree, the model follows the code:

- **Maximum retry wait.** The later tracker's maximum retry wait is written `25 * 60 * 60`. That is 90000 ms, although the comment next to it calls it 25 minutes.
- **Earlier tracker defaults.** The earlier tracker's defaults are 10000 ms, 10000 events and 65536 bytes. Its own tests expect other values.
- **Clamping tests.** test/tracker.spec.js:47-61 expects clamping of `bulkLen` and `bulkSize` that the constructor does not perform.

The earlier tracker discards the events of a stream named "". `flush()` takes every non-empty stream, which includes "", but `flush("", batch)` does not count as a batch call because "" is falsy. It starts another flush of every stream instead, so the batch it was given is never sent. `LegacyTracking.FlushedKey` models this.

## Model

| member | source | states |
|---|---|---|
| Storage.Appended | src/lib/storage/local.class.js:19-23 | after `add(s, x)` the stream holds its previous events (none if new) followed by `x`; the key set gains `s`; every other stream is unchanged |
| Storage.Emptied | src/lib/storage/local.class.js:44-51 | after `take(s)` the stream is still a key and holds nothing; every other stream is unchanged |
| Storage.AppendedAllAccumulates | src/lib/storage/local.class.js:19-25 | successive adds accumulate on their stream in order (`['data1','data2']`), leave every other stream as it was, and add the key once anything is added |
| Storage.TakeReturnsWhatWasAddedSince | src/lib/storage/local.class.js:44-51 | first in, first out: after a take, the stream holds exactly the events added since, in order |
| Storage.KeysNeverShrink | src/lib/storage/local.class.js:20-22 | no add or take removes a stream name |
| Storage.LocalStore.constructor | src/lib/storage/local.class.js:9-11 | a new backlog is empty and lists no streams |
| Storage.LocalStore.Add | src/lib/storage/local.class.js:19-25 | updates the backlog to `Appended`, lists a new stream last, and returns the stream's events after the push |
| Storage.LocalStore.Get | src/lib/storage/local.class.js:33-35 | reads without changing anything; `undefined` exactly for a stream never added |
| Storage.LocalStore.Take | src/lib/storage/local.class.js:44-51 | returns the stream's whole backlog in insertion order and empties it; for a stream never added, fails with "… does not exist in the store" and changes nothing |
| Storage.LocalStore.IsEmpty | src/lib/storage/local.class.js:58-61 | true iff the stream is absent or holds nothing |
| Storage.LocalStore.Keys | src/lib/storage/local.class.js:67-69 | every stream ever added, each exactly once |
| Stores.LocalStore.constructor | code/src/lib/stores/local.class.js:7-9 | a new store is empty |
| Stores.LocalStore.Add | code/src/lib/stores/local.class.js:17-23 | appends the value to its key, creating the key if missing; returns the key's values after the push; other keys unchanged |
| Stores.LocalStore.Get | code/src/lib/stores/local.class.js:31-33 | read-only; `undefined` exactly for a key never added |
| Stores.LocalStore.Take | code/src/lib/stores/local.class.js:41-47 | returns all values in order and leaves the key present and empty; an unknown key is an error that changes nothing |
| Stores.LocalStore.IsEmpty | code/src/lib/stores/local.class.js:54-57 | true iff the key is absent or holds nothing |
| Stores.LocalStore.Keys | code/src/lib/stores/local.class.js:63-65 | every key ever added, each once; keys never disappear |
| Request.Stringified | src/lib/request.class.js:35-41 | text data and `undefined` are kept as they are; other data is replaced by its JSON text; data that cannot be stringified is the 400 error "data is invalid - can't be stringified", and only that data |
| Request.Signature | src/lib/request.class.js:147-151 | an empty key gives ''; a non-empty key gives the hex HMAC of the data; the HMAC of non-text data throws a TypeError |
| Request.ErrorHandler | src/lib/request.class.js:133-141 | an error whose `name` is 'AtomError' passes through unchanged, whether an AtomError or any other object with that name; otherwise ECONNREFUSED becomes 500 "Connection Problem"; anything else becomes an AtomError 400 carrying the error |
| Request.ErrorHandlerIdempotent | src/lib/request.class.js:133-141 | normalising an already normalised error changes nothing |
| Request.Settle | src/lib/request.class.js:67-74 | status 200 resolves with the JSON text of the body, with an `undefined` message for an `undefined` body, and rejects with AtomError(TypeError, 400) when any other body has no JSON text; 400–599 rejects with AtomError(body, status); other statuses resolve with nothing; transport errors are normalised; never throws |
| Request.SettledStatusClasses | src/lib/request.class.js:69-73 | a rejection carrying an AtomError has a status in [400, 600); any other rejection is a transport error named AtomError |
| Request.HealthSettle | src/lib/request.class.js:118-124 | up ("Atom API is up", 200) iff the status is 200; any other status is AtomError("Atom API is down", status) |
| Request.PostExchange | src/lib/request.class.js:81-106 | after signing, POSTs `{stream, auth, data, bulk}` to the endpoint and settles the answer; a signing failure throws before any call |
| Request.GetExchange | src/lib/request.class.js:50-75 | a signing failure throws and leaves the params as they were; otherwise the params keep the new auth, and a call is made exactly when `{data, stream, auth}` has a JSON text: a GET of the endpoint with `data` = base64 of that text |
| Request.PostCarriesSignedData | src/lib/request.class.js:84-89 | the POST body's data, auth, stream and bulk are the params' data, the signature, the stream and the bulk flag |
| Request.Request.Create | src/lib/request.class.js:30-41 | construction stringifies non-text data into the params, or fails with the 400 error and leaves them untouched |
| Request.Request.CreateAuth | src/lib/request.class.js:147-151 | writes the signature into `params.auth`, or reports the TypeError and leaves the params as they were |
| Request.Request.Get | src/lib/request.class.js:50-75 | the call, the outcome and the new params are exactly `GetExchange` of the old params |
| Request.Request.Post | src/lib/request.class.js:81-106 | the call, the outcome and the new params are exactly `PostExchange` of the old params |
| Request.Request.Health | src/lib/request.class.js:112-125 | GETs `endpoint + 'health'`; resolved iff the status is 200 |
| Atom.MergeOptions | src/lib/atom.class.js:20-29 | each of endpoint, apiVersion, auth and debug is the caller's value when given and the configured default otherwise |
| Atom.Upper | src/lib/atom.class.js:87 | upper-casing maps each ASCII lower-case letter to its capital and keeps every other character |
| Atom.UpperCharIs | src/lib/atom.class.js:87 | a character upper-cases to a capital exactly when it is that capital or its lower-case letter |
| Atom.IsGetAnyCase | src/lib/atom.class.js:87 | a method counts as GET iff it is three characters spelling g, e, t in any mix of cases |
| Atom.EventCheck | src/lib/atom.class.js:79-81 | `putEvent` refuses a missing stream first ('Stream name is required'), then falsy data ('Data is required'), both 400; anything else passes |
| Atom.BulkCheck | src/lib/atom.class.js:127-140 | `putEvents` refuses, in this order, a missing stream, data that is not a non-empty array, and a method that upper-cases to GET, each with 400 |
| Atom.PutEventExchange | src/lib/atom.class.js:79-88 | a refused event makes no call and leaves the params alone; otherwise the params get the options' apiVersion and endpoint, `bulk` false, the data's text, and as `auth` the signature of that text under the options' key (a signing failure throws before any call); a signed event is then sent to the options' endpoint: by POST carrying the final params' `{stream, auth, data, bulk}` unless the method upper-cases to GET, and otherwise by GET with `data` = base64 of the JSON text of `{data, stream, auth}`, or a TypeError throw when that object has no JSON text; both settle by `Request.Settle` |
| Atom.PutEventsExchange | src/lib/atom.class.js:122-148 | a refused bulk makes no call and leaves the params as they were; an accepted one whose data has a text form and signs is exactly one POST to `endpoint + 'bulk'` of the copy with the options' apiVersion, `bulk` true and as `auth` the signature under the options' key, and settles as the server's answer says |
| Atom.BulkGoesToBulkEndpoint | src/lib/atom.class.js:142-147 | a valid bulk is POSTed to `endpoint + 'bulk'` with bulk true, the JSON text of the events, the stream and the signature of that text under the options' auth key, and settles by `Request.Settle` |
| Atom.GetRefusedForBulks | src/lib/atom.class.js:135-140 | 'GET', 'get' and 'Get' are all refused for a bulk with 'GET is not a valid method for putEvents' |
| Atom.IronSourceAtom.constructor | src/lib/atom.class.js:20-29 | the options are the merge of the defaults with the caller's options |
| Atom.IronSourceAtom.PutEvent | src/lib/atom.class.js:79-88 | writes apiVersion, auth, endpoint and bulk into the caller's params, and the result is exactly `PutEventExchange` |
| Atom.IronSourceAtom.PutEvents | src/lib/atom.class.js:122-148 | works on a fresh copy: the caller's params are never modified, and the result is `PutEventsExchange` of them (of `{}` when none are given) |
| Atom.IronSourceAtom.Health | src/lib/atom.class.js:161-168 | GETs `endpoint + 'health'` and settles by `HealthSettle` |
| Tracking.MergeRetry | src/lib/tracker.class.js:61-67 | the retry defaults are 10 retries, randomisation on, factor 2, 1000 ms minimum and 90000 ms maximum; each of the five keys the caller gives overrides its default on its own |
| Tracking.Normalize | src/lib/tracker.class.js:48-58 | a given non-zero interval is in seconds and a bulk size in KB; zero or missing values fall back to 10000 ms, 1000 events, 131072 bytes and concurrency 10; flushOnExit is on unless set |
| Tracking.DefaultConfig | test/tracker.spec.js:21-45 | no parameters give 10000, 1000, 131072, true, 10; (1, 100, 1, false, 1) give 1000, 100, 1024, false, 1 |
| Tracking.Backoff | src/lib/tracker.class.js:61-67 | a retry wait never exceeds the maximum timeout |
| Tracking.BackoffNeverShrinks | src/lib/tracker.class.js:61-67 | with a factor of at least 1, each wait is at least the previous one |
| Tracking.DefaultBackoffSchedule | src/lib/tracker.class.js:61-67 | with the defaults and no randomisation the waits are 1 s, 2 s, 4 s, …, 64 s, then capped at 90 s |
| Tracking.DueMeaning | src/lib/tracker.class.js:138-146 | an empty backlog is never sent; an unforced pass sends a stream iff its count, byte size or timer age reaches its limit; a forced pass sends every non-empty stream |
| Tracking.SendsOverMembers | src/lib/tracker.class.js:190-197 | a pass sends exactly the due streams it scans, each with its whole backlog |
| Tracking.ProcessLosesNothing | src/lib/tracker.class.js:190-197 | for each stream, either its whole backlog goes out as one bulk and the stream is left empty, or nothing is sent for it and it is unchanged |
| Tracking.ForcedProcessEmptiesAll | src/lib/tracker.class.js:220-231 | `flush()` leaves every stream present and empty |
| Tracking.SingleStreamPass | src/lib/tracker.class.js:190-197 | a pass over a single stream sends its whole backlog, empties it and resets its timer exactly when it is due, and otherwise changes nothing |
| Tracking.RunStep | src/lib/tracker.class.js:171-182 | one `track` on a single stream within the interval appends the event, and sends the backlog as one bulk exactly when it reaches `bulkLen` |
| Tracking.RunSendsFullBulks | src/lib/tracker.class.js:171-197 | tracking within one interval with small events sends bulks of exactly `bulkLen`; the sent events followed by those still pending are all the events tracked, in order |
| Tracking.TwoHundredEventsTenBulks | test/tracker.spec.js:117-131 | 200 events with a bulk length of 20 and a long interval give exactly 10 bulks, containing every event once in order, and nothing left pending |
| Tracking.SendFrom | src/lib/tracker.class.js:240-261 | a send makes between 1 and retries+1 attempts, and gives up on a server error only after the last one |
| Tracking.AttemptSettles | src/lib/tracker.class.js:240-247 | each attempt of an accepted bulk ends as `Request.Settle` says for that server answer |
| Tracking.RecoversAfterServerErrors | src/lib/tracker.class.js:248-256 | 5xx answers before attempt `k` and a 200 at attempt `k` deliver the response after exactly `k` attempts |
| Tracking.FiveServerErrorsThenSuccess | test/tracker.spec.js:222-238 | five 500s followed by success are delivered on the sixth attempt |
| Tracking.GivesUpAfterAllRetries | test/tracker.spec.js:202-220 | a server that keeps answering 5xx is tried exactly retries+1 times, and its last error goes to `onError` |
| Tracking.ClientErrorIsFinal | src/lib/tracker.class.js:250-255 | a 4xx answer ends the send at that attempt with that error |
| Tracking.TrackCheck | src/lib/tracker.class.js:171-174 | `track` accepts exactly a non-empty stream with data that is defined, not null and whose `length` is not loosely equal to 0; null data throws a TypeError, and every other refusal is 'Stream name and data are required parameters' |
| Tracking.Tracker.constructor | src/lib/tracker.class.js:35-80 | the configuration is `Normalize` of the params; the backlog, timers and error log start empty |
| Tracking.Tracker.Send | src/lib/tracker.class.js:240-261 | the attempt loop's report is `SendSpec`; `onError` is called once, with the final error, exactly when the send fails |
| Tracking.Tracker.ExpectedAll | src/lib/tracker.class.js:190-197 | a pass yields exactly one result per stream |
| Tracking.Tracker.ExpectedAllAt | src/lib/tracker.class.js:191-196 | result `i` of a pass belongs to stream `keys[i]`: the report of sending its whole backlog when it is due, nothing otherwise |
| Tracking.Tracker.Step | src/lib/tracker.class.js:192-195 | a due stream has its timer reset to now and its whole backlog taken and sent, the send's report being the result; a stream that is not due is left as it was and yields nothing; only the send's own error reaches `onError` |
| Tracking.Tracker.ProcessOne | src/lib/tracker.class.js:191-195 | handling one stream moves the state one step along `ProcessedUpTo` and yields that stream's expected report |
| Tracking.Tracker.Process | src/lib/tracker.class.js:190-197 | the new state is `Processed` of the old, the results are each stream's expected report in key order, and `onError` receives their errors in order |
| Tracking.Tracker.Accept | src/lib/tracker.class.js:175-179 | the event joins its stream's backlog (a new stream goes last), and the stream's timer is set to now only when it is unset or zero |
| Tracking.Tracker.Track | src/lib/tracker.class.js:171-182 | a refused call changes nothing; otherwise the event is added, an unset timer is set to now, and one unforced pass runs, whose results (each stream's report, in key order) are returned |
| Tracking.Tracker.Flush | src/lib/tracker.class.js:220-231 | `flush(s)` sends only `s`, only if it is non-empty, without touching timers; `flush()` (or a falsy name) runs a forced pass and returns its results, each stream's report in key order |
| Tracking.Tracker.ExitHandler | src/lib/tracker.class.js:96-107 | with flushOnExit, the first call runs one unforced pass and yields its results; later calls, or any call without flushOnExit, change nothing |
| LegacyRequest.SetFieldIn | code/src/lib/request.class.js:29-34 | assigning a property sets it and leaves every other property's value alone |
| LegacyRequest.Signed | code/src/lib/request.class.js:29-31 | a falsy auth becomes ''; a truthy one is signed exactly when the key and the data are both text, and then becomes the hex HMAC of the data under it; otherwise a TypeError is thrown |
| LegacyRequest.Prepared | code/src/lib/request.class.js:29-34 | after signing, `table` is the stream name and nothing but auth and table has changed |
| LegacyRequest.Caught | code/src/lib/request.class.js:53-59 | an error with a status of 400 or more passes through; anything else becomes 400 'Connection Problem' |
| LegacyRequest.Settle | code/src/lib/request.class.js:47-59 | a status of 400 or more rejects with {message: body, status}; any other resolves with the same shape; transport errors go through `Caught` |
| LegacyRequest.HealthSettle | code/src/lib/request.class.js:99-110 | up ('Atom API is up') iff the status is below 400; otherwise down ('Atom API is down', status) |
| LegacyRequest.RejectionsCarryErrorStatus | code/src/lib/request.class.js:47-59 | every rejection carries a status of 400 or more and every success a status below 400 |
| LegacyRequest.GetExchange | code/src/lib/request.class.js:26-60 | a signing failure throws with the params unchanged; otherwise the params are signed and given `table` first; a bulk is then refused with 400 'Bad Request, Sending Bulks with GET is not allowed ' and no call is made; any other request is a GET of the endpoint with `data` = base64 of the JSON text of the whole params, made exactly when that text exists (a TypeError throw otherwise), and settles by `Settle` |
| LegacyRequest.PostExchange | code/src/lib/request.class.js:63-91 | the whole prepared params object is POSTed, and the answer settles by `Settle` |
| LegacyRequest.PostTargetsBulkPath | code/src/lib/request.class.js:71-77 | a bulk POST goes to `endpoint + "/bulk"`, any other to the endpoint, and the body's `table` is the stream name |
| LegacyRequest.Request.Get | code/src/lib/request.class.js:26-60 | the call, the outcome and the new params are exactly `GetExchange` |
| LegacyRequest.Request.Post | code/src/lib/request.class.js:63-91 | the call, the outcome and the new params are exactly `PostExchange` |
| LegacyRequest.Request.New | code/src/lib/request.class.js:17-23 | 'health' GETs `endpoint + '/health'`; a params object goes by GET iff its method is exactly 'GET', otherwise by POST |
| LegacyRequest.LowerCaseGetPosts | code/src/lib/request.class.js:22 | the method test is case-sensitive: 'get' is sent by POST |
| LegacyAtom.Configured | code/src/lib/atom.class.js:9-13 | a falsy auth key becomes '', and a missing or empty endpoint the default one |
| LegacyAtom.Stamped | code/src/lib/atom.class.js:43-44 | `putEvents` sets apiVersion to 'V1' and auth to the client's key, and changes no other property |
| LegacyAtom.PutEventsAsWritten | code/src/lib/atom.class.js:34-46 | as written, params without a `table` or without a non-empty data array throw a TypeError; all others go to a `Request` for the client's endpoint, stamped |
| LegacyAtom.PutEvents | code/src/lib/atom.class.js:34-46 | with reports through `logger.error`, nothing throws; data that is not a non-empty array returns `undefined`; everything else goes to a `Request`, stamped, with or without a `table` |
| LegacyAtom.AgreeGivenTable | code/src/lib/atom.class.js:34-46 | for params with a `table`, the code as written and as intended send the same request, and refuse exactly the same data |
| LegacyAtom.SendParamsFields | code/src/lib/tracker.class.js:154 | the tracker's params hold its stream and batch and no other property, `table` in particular |
| LegacyAtom.TrackerSendThrows | code/src/lib/atom.class.js:37-38 | as written, every send of the earlier tracker throws a TypeError before any request is built |
| LegacyAtom.TrackerSendReachesRequest | code/src/lib/atom.class.js:34-45 | as intended, a send of a non-empty batch builds a POST `Request` for the client's endpoint carrying the stream, the batch, 'V1' and the auth key |
| LegacyTracking.Normalize | code/src/lib/tracker.class.js:15-17 | a given non-zero interval is scaled by 1000 and a bulk size by 1024; otherwise 10000 ms, 10000 events and 65536 bytes; flushOnExit only when set |
| LegacyTracking.DefaultConfig | code/src/lib/tracker.class.js:15-17 | no options or zeros give 10000, 10000, 65536 and no flush on exit; (2, 50, 8) give 2000, 50, 8192 |
| LegacyTracking.SendFrom | code/src/lib/tracker.class.js:153-169 | a send waits once before each retry, every wait is below ten minutes, and it ends delivered, dropped on an error below 500, or given up on a server error |
| LegacyTracking.Doubling | code/src/lib/tracker.class.js:157-161 | the doubling delays all stay below ten minutes |
| LegacyTracking.PersistentServerErrors | code/src/lib/tracker.class.js:153-169 | under persistent server errors a send waits exactly the doubling delays from its timeout and then gives up |
| LegacyTracking.TenMinutesOfRetries | code/src/lib/tracker.class.js:119 | from the default 1000 ms the delays are 1000, 2000, …, 512000: eleven attempts, then the send gives up |
| LegacyTracking.RecoversWithinLimit | code/src/lib/tracker.class.js:153-169 | server errors until attempt `m` and success at `m` deliver at attempt `m` after the first `m - n` doubling delays |
| LegacyTracking.UntimedSendIsSingle | code/src/lib/tracker.class.js:126-132 | a send started by `flush(stream)` has no timeout and makes exactly one attempt |
| LegacyTracking.ClientErrorIsDropped | code/src/lib/tracker.class.js:166-168 | an error below 500 is never retried |
| LegacyTracking.FlushedAllSendsBacklogs | code/src/lib/tracker.class.js:134-142 | `flush()` sends each non-empty stream other than "" exactly with its backlog and a 1000 ms timeout, and sends nothing else |
| LegacyTracking.TakenAll | code/src/lib/tracker.class.js:134-142 | flushing every key keeps the key set |
| LegacyTracking.FlushAllEmptiesEverything | code/src/lib/tracker.class.js:134-142 | after `flush()` nothing is pending for any stream |
| LegacyTracking.Tracker.constructor | code/src/lib/tracker.class.js:12-34 | the configuration is `Normalize` of the options; a new empty store; no timer and no armed callback |
| LegacyTracking.Tracker.Send | code/src/lib/tracker.class.js:153-169 | the retry loop's report is exactly `SendFrom` from attempt 1 |
| LegacyTracking.Tracker.FlushKey | code/src/lib/tracker.class.js:137-139 | one key of `flush()` empties that key and makes its `FlushedKey` sends |
| LegacyTracking.Tracker.FlushAll | code/src/lib/tracker.class.js:134-142 | every key is taken (`TakenAll`), and the sends are `FlushedAll` in key order |
| LegacyTracking.Tracker.Flush | code/src/lib/tracker.class.js:117-143 | `flush(s, [])` throws a TypeError and changes nothing; `flush(s, d)` for a non-empty `d` sends `d` with the timeout (1000 when falsy) and leaves the store alone; `flush(s)` takes and sends `s` without timeout, only if non-empty; otherwise every key is flushed and the timer cleared |
| LegacyTracking.Tracker.Track | code/src/lib/tracker.class.js:93-109 | a null or undefined stream or data throws 'Stream or data empty' and changes nothing; otherwise the event is added, and the stream is flushed at once if long or large enough, or else a timer is armed for it when none is set; a new stream is listed last; for the stream "" the flush is a flush of every stream, whose sends are `FlushedAll` of the store after the add |
| LegacyTracking.Tracker.TimerFires | code/src/lib/tracker.class.js:104-106 | the oldest armed callback is removed and runs `flush` on its stream: one armed for a named stream flushes that stream and leaves the timer set; one armed for "" flushes every stream and clears it |
| LegacyTracking.Tracker.ExitHandler | code/src/lib/tracker.class.js:36-43 | with flushOnExit, the first call flushes every stream; later calls do nothing |

## Left out

- HTTP I/O (`fetchRequest`, `request.getAsync` / `postAsync`): each attempt's answer is a parameter; request headers are constants with no behaviour here.
- Timers and process hooks (`setInterval`, `setTimeout`, `process.on`, `process.exit` after 3 s): time is the `now` argument, interval ticks are `Tracking.Tracker.Process(false, …)` calls, the earlier tracker's callbacks are `TimerFires` calls, and exit signals are `ExitHandler` calls.
- Concurrency: `Promise.map` with its concurrency option is modelled as a sequential pass at one `now`; in the earlier tracker each send runs its whole retry sequence before the next key is flushed, so interleavings of delayed retries with other calls are not modelled. Bluebird's `Promise.map` starts its mapper only after `track` has returned, so consecutive `track` calls that are not awaited all add their events before any pass runs; Tracking.RunSendsFullBulks and Tracking.TwoHundredEventsTenBulks assume each pass settles before the next call, as test/tracker.spec.js does by yielding on every `track`.
- `object-sizeof`, `JSON.stringify`, HMAC-SHA256 and base64 are uninterpreted parameters (`sizeOf`, `Codec`).
- Numbers are integers: a fractional `flushInterval` (0.5 s gives 500 ms), a fractional `bulkSize`, a fractional retry `factor` or timeout, and non-integer event values cannot be expressed.
- Atom.Upper: only ASCII letters are upper-cased; JavaScript's `toUpperCase` also maps other letters, some to several characters ('ß' to 'SS'). For a method made of ASCII characters the GET test decides the same.
- Tracking.TrackCheck: the loose `data.length == 0` is modelled for a `length` of 0, false, '', '0' or []; other strings that read as zero (' ', '00', '0.0') and arrays that do ([0], [[]]) are not treated as zero.
- `add` and `get` of both backlogs return the stream's live array, which a later `take` empties in place; the model returns the values as they are at the call (no modelled caller keeps the array).
- Tracking.MergeRetry, Tracking.SendFrom: a caller's `minTimeout` above `maxTimeout` (100000 against the default 90000) makes the retry library throw when it computes its timeouts, before the first attempt, so the pass rejects and `onError` is never called; the model retries as usual.
- Tracking.SendFrom: promise-retry's scheduling is not modelled, only the attempt count and the retry/give-up rule; the waits (`Backoff`) are stated separately and with randomisation off, because the randomisation factor is floating point.
- The `onError` callback is the log `reported`; which callback the caller supplies, and the logger calls, are not modelled.
- The `logger` and `debug` options, and the logger's toggling, have no effect on the modelled behaviour and are left out.
- A caller-supplied backlog (`params.backlog`, `params.store`): the trackers always build their own `LocalStore`.
- The trackers write their normalised settings back into the caller's `params` object; the model keeps them in `config` only.
- Stream names and methods that are not strings, and stream names that clash with `Object.prototype` properties: streams are `string`s, and a method is a `string` (`toUpperCase` of a non-string is not modelled).
- `Object.keys` lists integer-like names first; the model lists streams in insertion order.
- An option key that the caller sets explicitly to `undefined` overrides the default in `Object.assign`; the model treats it as not given.
- LegacyTracking.Tracker.Send: timeouts are natural numbers of at least 1 as `flush` passes them; a negative timeout, with which the code would retry forever, is not modelled.
- LegacyTracking.Tracker.Track: the settled `putEvents` promise is the parameter, so the synchronous TypeError that `new Request` throws for a non-text HMAC key or data inside the earlier tracker is not modelled.
- Of the earlier Atom wrapper (code/src/lib/atom.class.js) only `putEvents` is modelled, in `LegacyAtom`; its `putEvent` is never called by the earlier tracker and is left out, and the `Request` it builds is modelled in `LegacyRequest` but not linked to the tracker's sends.
- LegacyTracking.Tracker.Send, LegacyTracking.Tracker.Flush and LegacyTracking.Tracker.Track: `net` is how the earlier `putEvents` settles as intended (`LegacyAtom.PutEvents`); as written (see Findings) every send throws a TypeError before any request, so `track` would lose the batch it has just taken and throw, a timer callback would throw uncaught, and `flush()` would stop at the first non-empty key; the model does not follow that path.
- The JSON serialisation of the earlier POST body by the HTTP library (which cannot fail for the objects modelled) is not modelled.
- src/index.js, src/index.v2.js, the example programs, code/src/_apidoc.js, code/src/lib/emitter.class.js, the config and logger files (their constants are used) and the test mock are not part of this model.
- test/tracker.spec.js:47-61, code/test/tracker.spec.js:11-34, code/test/tracker.spec.js:36-42 and code/test/atom.spec.js:79-84 expect behaviour the code does not have; the model follows the code.

## Findings

| source | as written | input that shows it | evidently intended | confidence | as-written member | corrected member |
|---|---|---|---|---|---|---|
| code/src/lib/atom.class.js:37-41 | `putEvents` reports a missing `table` through `logger.err`, which code/src/lib/logger.js:5-28 does not define, so the report itself throws a TypeError (the bad-data report does the same) | `putEvents({stream: "s", data: [e]})`, the params code/src/lib/tracker.class.js:154 passes for every send | report through `logger.error` (code/src/lib/logger.js:6) and go on; the `Request` then sets `table` from `stream`. code/test/atom.spec.js:79-84 instead expect rejections with messages the code never produces ('Data must a be a non-empty Array'); `logger.error` is taken as the intent because it is the logger's reporting function, the missing-`table` branch carries no `return` and so was meant to go on, and the earlier tracker could send nothing otherwise | not executed | LegacyAtom.TrackerSendThrows | LegacyAtom.TrackerSendReachesRequest |
