/**
 * `Tracker` (src/lib/tracker.class.js): buffers events per stream in a
 * `LocalStore` backlog and sends a stream's whole backlog as one bulk through
 * `IronSourceAtom.putEvents` once it is long enough, large enough, or old
 * enough. A failed bulk is retried with exponential backoff while the server
 * answers with a 5xx status; a bulk that finally fails is handed to the
 * `onError` callback, never rejected.
 *
 * Time is a parameter (`now`, milliseconds); the answers the server gives are a
 * parameter (`net(stream, attempt)`, attempts counted from 1); the `onError`
 * callback is modelled by the log `reported` of the values it was called with.
 */
module Tracking {
  import opened Utils
  import Storage
  import Request
  import Atom

  /** Defaults of src/config.js. */
  const FLUSH_INTERVAL: int := 10 * 1000
  const BULK_LENGTH: int := 1000
  const BULK_SIZE: int := 128 * 1024
  const CONCURRENCY: int := 10

  /** The promise-retry options the tracker passes on (tracker.class.js:61-67). */
  datatype RetryOptions = RetryOptions(retries: nat, randomize: bool, factor: nat, minTimeout: nat, maxTimeout: nat)

  /** The constructor's retry defaults. The maximum is written `25 * 60 * 60`,
      which is 90000 milliseconds (although documented as 25 minutes). */
  const DefaultRetry := RetryOptions(10, true, 2, 1000, 25 * 60 * 60)

  /** Retry options a caller may pass; None is a key the caller did not set. */
  datatype UserRetry = UserRetry(
    retries: Option<nat>, randomize: Option<bool>, factor: Option<nat>,
    minTimeout: Option<nat>, maxTimeout: Option<nat>)

  /** The constructor's `params`; numbers are in the caller's units (seconds, KB). */
  datatype TrackerParams = TrackerParams(
    flushInterval: Option<int>,
    bulkLen: Option<int>,
    bulkSize: Option<int>,
    flushOnExit: Option<bool>,
    concurrency: Option<int>,
    retryOptions: Option<UserRetry>,
    atom: Option<Atom.UserOptions>)

  /** The tracker's working parameters: milliseconds, a count, bytes. */
  datatype Config = Config(
    flushInterval: int, bulkLen: int, bulkSize: int, flushOnExit: bool,
    concurrency: int, retry: RetryOptions)

  /** `!!n` for a number the caller may have left out. */
  predicate SetNonZero(n: Option<int>)
  {
    n.Some? && n.value != 0
  }

  /** The `Object.assign` of the retry defaults with the caller's options. */
  function MergeRetry(user: Option<UserRetry>): (r: RetryOptions)
    ensures user.None? ==> r == DefaultRetry
    ensures user.Some? ==> r.retries == Atom.OrElse(user.value.retries, 10)
    ensures user.Some? ==> r.randomize == Atom.OrElse(user.value.randomize, true)
    ensures user.Some? ==> r.factor == Atom.OrElse(user.value.factor, 2)
    ensures user.Some? ==> r.minTimeout == Atom.OrElse(user.value.minTimeout, 1000)
    ensures user.Some? ==> r.maxTimeout == Atom.OrElse(user.value.maxTimeout, 90000)
  {
    match user
    case None => DefaultRetry
    case Some(u) =>
      RetryOptions(Atom.OrElse(u.retries, 10), Atom.OrElse(u.randomize, true), Atom.OrElse(u.factor, 2),
                   Atom.OrElse(u.minTimeout, 1000), Atom.OrElse(u.maxTimeout, 25 * 60 * 60))
  }

  /** The constructor's normalisation: a non-zero flush interval is taken as
      seconds and a non-zero bulk size as KB; zero or missing values fall back
      to the defaults; `flushOnExit` is on unless the caller set it. */
  function Normalize(p: TrackerParams): (c: Config)
    ensures SetNonZero(p.flushInterval) ==> c.flushInterval == p.flushInterval.value * 1000
    ensures !SetNonZero(p.flushInterval) ==> c.flushInterval == FLUSH_INTERVAL
    ensures SetNonZero(p.bulkLen) ==> c.bulkLen == p.bulkLen.value
    ensures !SetNonZero(p.bulkLen) ==> c.bulkLen == BULK_LENGTH
    ensures SetNonZero(p.bulkSize) ==> c.bulkSize == p.bulkSize.value * 1024
    ensures !SetNonZero(p.bulkSize) ==> c.bulkSize == BULK_SIZE
    ensures c.flushOnExit <==> p.flushOnExit != Some(false)
    ensures SetNonZero(p.concurrency) ==> c.concurrency == p.concurrency.value
    ensures !SetNonZero(p.concurrency) ==> c.concurrency == CONCURRENCY
    ensures c.retry == MergeRetry(p.retryOptions)
  {
    Config(
      if SetNonZero(p.flushInterval) then p.flushInterval.value * 1000 else FLUSH_INTERVAL,
      if SetNonZero(p.bulkLen) then p.bulkLen.value else BULK_LENGTH,
      if SetNonZero(p.bulkSize) then p.bulkSize.value * 1024 else BULK_SIZE,
      Atom.OrElse(p.flushOnExit, true),
      if SetNonZero(p.concurrency) then p.concurrency.value else CONCURRENCY,
      MergeRetry(p.retryOptions))
  }

  /** A tracker built without parameters flushes every 10 s, at 1000 events or
      at 128 KB, flushes on exit, and retries ten times. */
  lemma DefaultConfig()
    ensures Normalize(TrackerParams(None, None, None, None, None, None, None)) ==
            Config(10000, 1000, 131072, true, 10, RetryOptions(10, true, 2, 1000, 90000))
    ensures Normalize(TrackerParams(Some(1), Some(100), Some(1), Some(false), Some(1), None, None)) ==
            Config(1000, 100, 1024, false, 1, DefaultRetry)
  {
  }

  /** The wait before retry number `i + 1`, without randomisation: the
      minimum timeout grown by the factor once per earlier retry, capped. */
  function Backoff(r: RetryOptions, i: nat): (w: nat)
    ensures w <= r.maxTimeout
  {
    var grown := (if r.minTimeout < 1 then 1 else r.minTimeout) * Pow(r.factor, i);
    if grown < r.maxTimeout then grown else r.maxTimeout
  }

  function Pow(b: nat, e: nat): nat
  {
    if e == 0 then 1 else b * Pow(b, e - 1)
  }

  lemma {:induction false} PowMonotone(b: nat, e: nat)
    requires b >= 1
    ensures Pow(b, e) <= Pow(b, e + 1)
  {
    assert Pow(b, e + 1) == b * Pow(b, e);
  }

  /** Waits never shrink from one retry to the next when the factor is at least 1. */
  lemma BackoffNeverShrinks(r: RetryOptions, i: nat)
    requires r.factor >= 1
    ensures Backoff(r, i) <= Backoff(r, i + 1)
  {
    var m := if r.minTimeout < 1 then 1 else r.minTimeout;
    PowMonotone(r.factor, i);
    assert m * Pow(r.factor, i) <= m * Pow(r.factor, i + 1);
  }

  /** With the default options and no randomisation the waits are 1 s, 2 s,
      4 s, ... until they reach the cap of 90 s. */
  lemma DefaultBackoffSchedule()
    ensures var r := DefaultRetry.(randomize := false);
      [Backoff(r, 0), Backoff(r, 1), Backoff(r, 2), Backoff(r, 6), Backoff(r, 7), Backoff(r, 9)] ==
      [1000, 2000, 4000, 64000, 90000, 90000]
  {
    var r := DefaultRetry.(randomize := false);
    assert Pow(2, 6) == 64;
    assert Pow(2, 7) == 128;
    assert Pow(2, 9) == 512;
  }

  // ---------------------------------------------------------------------------
  // When a stream is flushed

  /** `_shouldTriggerIntervalFlush`: the stream has a timer and at least the
      flush interval has passed since it was set. */
  predicate IntervalDue(cfg: Config, timers: map<string, int>, stream: string, now: int)
  {
    stream in timers && cfg.flushInterval <= now - timers[stream]
  }

  /** `_shouldFlush`, given the stream's events and the interval test: never for
      an empty backlog; otherwise when the count, the byte size or the time
      reaches its limit. */
  predicate FlushDue(cfg: Config, sizeOf: seq<Value> -> int, payload: seq<Value>, intervalDue: bool)
  {
    |payload| > 0 && (|payload| >= cfg.bulkLen || sizeOf(payload) >= cfg.bulkSize || intervalDue)
  }

  /** What the tracker knows: the backlog (and the order its streams were
      added in) and the per-stream timers. */
  datatype TrackerState = TrackerState(data: map<string, seq<Value>>, streams: seq<string>, timers: map<string, int>)

  /** `_process`'s test for one stream. */
  predicate Due(cfg: Config, sizeOf: seq<Value> -> int, st: TrackerState, stream: string, force: bool, now: int)
  {
    var p := Storage.Pending(st.data, stream);
    FlushDue(cfg, sizeOf, p, IntervalDue(cfg, st.timers, stream, now)) || (force && p != [])
  }

  /** No stream with an empty backlog is ever sent; a forced pass sends every
      stream that has something; an unforced pass sends a stream exactly when
      one of the three limits is reached. */
  lemma DueMeaning(cfg: Config, sizeOf: seq<Value> -> int, st: TrackerState, stream: string, force: bool, now: int)
    ensures Due(cfg, sizeOf, st, stream, force, now) ==> Storage.Pending(st.data, stream) != []
    ensures force ==> (Due(cfg, sizeOf, st, stream, force, now) <==> Storage.Pending(st.data, stream) != [])
    ensures !force ==> (Due(cfg, sizeOf, st, stream, force, now) <==>
      var p := Storage.Pending(st.data, stream);
      p != [] && (|p| >= cfg.bulkLen || sizeOf(p) >= cfg.bulkSize ||
                  (stream in st.timers && cfg.flushInterval <= now - st.timers[stream])))
  {
  }

  /** The state once `_process` has handled the streams in `done`: each due
      stream is emptied and its timer set to `now`; nothing else changes. */
  function ProcessedUpTo(cfg: Config, sizeOf: seq<Value> -> int, st: TrackerState, force: bool, now: int, done: seq<string>): TrackerState
  {
    ProcessedWith(st, SentIn(cfg, sizeOf, st, force, now, done), now)
  }

  /** `st` with the streams in `sent` emptied and re-timed to `now`. */
  function ProcessedWith(st: TrackerState, sent: set<string>, now: int): TrackerState
  {
    TrackerState(
      map k | k in st.data :: if k in sent then [] else st.data[k],
      st.streams,
      map k | k in st.timers.Keys + sent :: if k in sent then now else st.timers[k])
  }

  lemma ProcessedWithOneMore(st: TrackerState, sent: set<string>, k: string, now: int)
    requires k in st.data
    ensures var s := ProcessedWith(st, sent, now);
      ProcessedWith(st, sent + {k}, now) == TrackerState(s.data[k := []], s.streams, s.timers[k := now])
  {
    var s := ProcessedWith(st, sent, now);
    var s' := ProcessedWith(st, sent + {k}, now);
    assert s'.data == s.data[k := []];
    assert s'.timers == s.timers[k := now];
  }

  /** The streams among `done` that a pass starting in `st` sends. */
  function SentIn(cfg: Config, sizeOf: seq<Value> -> int, st: TrackerState, force: bool, now: int, done: seq<string>): set<string>
  {
    set k | k in done && Due(cfg, sizeOf, st, k, force, now)
  }

  lemma SentInStep(cfg: Config, sizeOf: seq<Value> -> int, st: TrackerState, force: bool, now: int, done: seq<string>, k: string)
    ensures SentIn(cfg, sizeOf, st, force, now, done + [k]) ==
      SentIn(cfg, sizeOf, st, force, now, done) + if Due(cfg, sizeOf, st, k, force, now) then {k} else {}
  {
  }

  /** The state after a whole `_process` pass. */
  function Processed(cfg: Config, sizeOf: seq<Value> -> int, st: TrackerState, force: bool, now: int): TrackerState
  {
    ProcessedUpTo(cfg, sizeOf, st, force, now, st.streams)
  }

  /** The bulks a pass sends, in the order of `keys`. */
  function SendsOver(cfg: Config, sizeOf: seq<Value> -> int, st: TrackerState, force: bool, now: int, keys: seq<string>): seq<(string, seq<Value>)>
  {
    if keys == [] then []
    else
      (if Due(cfg, sizeOf, st, keys[0], force, now) then [(keys[0], Storage.Pending(st.data, keys[0]))] else []) +
      SendsOver(cfg, sizeOf, st, force, now, keys[1..])
  }

  lemma {:induction false} SendsOverMembers(cfg: Config, sizeOf: seq<Value> -> int, st: TrackerState, force: bool, now: int, keys: seq<string>)
    ensures forall s :: s in SendsOver(cfg, sizeOf, st, force, now, keys) <==>
      s.0 in keys && Due(cfg, sizeOf, st, s.0, force, now) && s.1 == Storage.Pending(st.data, s.0)
  {
    if keys != [] {
      SendsOverMembers(cfg, sizeOf, st, force, now, keys[1..]);
      assert forall k :: k in keys <==> k == keys[0] || k in keys[1..];
    }
  }

  lemma PrefixStep<T>(s: seq<T>, i: nat)
    requires i < |s|
    ensures s[..i + 1] == s[..i] + [s[i]]
    ensures Storage.Distinct(s) ==> s[i] !in s[..i]
  {
  }

  /** Before a pass has handled any stream, nothing has changed. */
  lemma ProcessedNothing(cfg: Config, sizeOf: seq<Value> -> int, st: TrackerState, force: bool, now: int)
    ensures ProcessedUpTo(cfg, sizeOf, st, force, now, []) == st
  {
    var s := ProcessedUpTo(cfg, sizeOf, st, force, now, []);
    assert SentIn(cfg, sizeOf, st, force, now, []) == {};
    assert s.data == st.data;
    assert s.timers == st.timers;
  }

  /** Handling one more stream `k` in a pass: `k` is still as the pass found
      it, and is emptied and re-timed if it is due. */
  lemma ProcessedStep(cfg: Config, sizeOf: seq<Value> -> int, st: TrackerState, force: bool, now: int, done: seq<string>, k: string)
    requires k !in done
    ensures var s := ProcessedUpTo(cfg, sizeOf, st, force, now, done);
      Storage.Pending(s.data, k) == Storage.Pending(st.data, k) &&
      (k in s.timers <==> k in st.timers) && (k in s.timers ==> s.timers[k] == st.timers[k]) &&
      ProcessedUpTo(cfg, sizeOf, st, force, now, done + [k]) ==
        if Due(cfg, sizeOf, st, k, force, now)
        then TrackerState(s.data[k := []], s.streams, s.timers[k := now])
        else s
  {
    var sent := SentIn(cfg, sizeOf, st, force, now, done);
    SentInStep(cfg, sizeOf, st, force, now, done, k);
    if Due(cfg, sizeOf, st, k, force, now) {
      assert k in st.data;
      ProcessedWithOneMore(st, sent, k, now);
    } else {
      assert sent + {} == sent;
    }
  }

  /** Whether a stream is due depends only on its own backlog and timer. */
  lemma DueHere(cfg: Config, sizeOf: seq<Value> -> int, st: TrackerState, s: TrackerState, k: string, force: bool, now: int)
    requires Storage.Pending(s.data, k) == Storage.Pending(st.data, k)
    requires (k in s.timers <==> k in st.timers) && (k in s.timers ==> s.timers[k] == st.timers[k])
    ensures Due(cfg, sizeOf, s, k, force, now) == Due(cfg, sizeOf, st, k, force, now)
  {
  }

  /** A pass loses nothing and sends nothing twice: each stream either goes out
      whole, as one bulk, and is left empty, or is left exactly as it was. */
  lemma ProcessLosesNothing(cfg: Config, sizeOf: seq<Value> -> int, st: TrackerState, force: bool, now: int, stream: string)
    requires stream in st.data && stream in st.streams
    ensures var after := Processed(cfg, sizeOf, st, force, now);
      var sends := SendsOver(cfg, sizeOf, st, force, now, st.streams);
      ((stream, st.data[stream]) in sends && after.data[stream] == []) ||
      ((forall s :: s in sends ==> s.0 != stream) && after.data[stream] == st.data[stream])
  {
    SendsOverMembers(cfg, sizeOf, st, force, now, st.streams);
  }

  /** A forced pass (`flush()`) leaves every stream empty. */
  lemma ForcedProcessEmptiesAll(cfg: Config, sizeOf: seq<Value> -> int, st: TrackerState, now: int)
    requires forall k :: k in st.data ==> k in st.streams
    ensures var after := Processed(cfg, sizeOf, st, true, now);
      after.data.Keys == st.data.Keys && forall k :: k in after.data ==> after.data[k] == []
  {
  }

  // ---------------------------------------------------------------------------
  // Tracking runs

  /** `add` plus the timer arming of `track`: a stream whose timer is unset
      (or zero) gets the current time. */
  function Added(st: TrackerState, stream: string, x: Value, now: int): TrackerState
  {
    TrackerState(
      Storage.Appended(st.data, stream, x),
      if stream in st.data then st.streams else st.streams + [stream],
      if stream !in st.timers || st.timers[stream] == 0 then st.timers[stream := now] else st.timers)
  }

  /** The state and the bulks sent after tracking `xs[i]` at time `ts[i]`, all
      on one stream. */
  function Run(cfg: Config, sizeOf: seq<Value> -> int, st: TrackerState, stream: string, xs: seq<Value>, ts: seq<int>): (TrackerState, seq<(string, seq<Value>)>)
    requires |ts| == |xs|
    decreases |xs|
  {
    if xs == [] then (st, [])
    else
      var st1 := Added(st, stream, xs[0], ts[0]);
      var sent := SendsOver(cfg, sizeOf, st1, false, ts[0], st1.streams);
      var rest := Run(cfg, sizeOf, Processed(cfg, sizeOf, st1, false, ts[0]), stream, xs[1..], ts[1..]);
      (rest.0, sent + rest.1)
  }

  function Flatten(sends: seq<(string, seq<Value>)>): seq<Value>
  {
    if sends == [] then [] else sends[0].1 + Flatten(sends[1..])
  }

  lemma {:induction false} FlattenAppend(a: seq<(string, seq<Value>)>, b: seq<(string, seq<Value>)>)
    ensures Flatten(a + b) == Flatten(a) + Flatten(b)
  {
    if a == [] {
      assert a + b == b;
    } else {
      assert (a + b)[1..] == a[1..] + b;
      FlattenAppend(a[1..], b);
      calc {
        Flatten(a + b);
        (a + b)[0].1 + Flatten((a + b)[1..]);
        a[0].1 + (Flatten(a[1..]) + Flatten(b));
        (a[0].1 + Flatten(a[1..])) + Flatten(b);
      }
    }
  }

  /** What a single-stream run preserves: the only stream is `stream`, its
      backlog is short of a bulk, and its timer (if any) was set no earlier
      than `t0`. */
  predicate OneStream(cfg: Config, st: TrackerState, stream: string, t0: int)
  {
    (forall k :: k in st.data ==> k == stream) &&
    st.streams == (if stream in st.data then [stream] else []) &&
    (stream in st.timers ==> st.timers[stream] >= t0) &&
    |Storage.Pending(st.data, stream)| < cfg.bulkLen
  }

  /** A pass over a state whose only stream is `k`: `k` goes out, whole, and
      is emptied and re-timed exactly when it is due. */
  lemma SingleStreamPass(cfg: Config, sizeOf: seq<Value> -> int, st: TrackerState, force: bool, now: int, k: string)
    requires st.streams == [k]
    ensures SendsOver(cfg, sizeOf, st, force, now, st.streams) ==
      if Due(cfg, sizeOf, st, k, force, now) then [(k, Storage.Pending(st.data, k))] else []
    ensures Processed(cfg, sizeOf, st, force, now) ==
      if Due(cfg, sizeOf, st, k, force, now)
      then TrackerState(st.data[k := []], st.streams, st.timers[k := now])
      else st
  {
    assert [k][1..] == [];
    ProcessedNothing(cfg, sizeOf, st, force, now);
    ProcessedStep(cfg, sizeOf, st, force, now, [], k);
    assert [] + [k] == [k];
  }

  /** Adding to a single-stream state within the interval: the stream is the
      only one, its backlog grows by `x` and its timer is not yet due. */
  lemma AddedOneStream(cfg: Config, st: TrackerState, stream: string, x: Value, now: int, t0: int)
    requires t0 <= now < t0 + cfg.flushInterval
    requires OneStream(cfg, st, stream, t0)
    ensures var st1 := Added(st, stream, x, now);
      st1.streams == [stream] && (forall k :: k in st1.data ==> k == stream) &&
      Storage.Pending(st1.data, stream) == Storage.Pending(st.data, stream) + [x] &&
      stream in st1.timers && t0 <= st1.timers[stream] &&
      !IntervalDue(cfg, st1.timers, stream, now)
  {
  }

  /** One `track` of a single-stream run: the event joins the backlog, and the
      backlog goes out as one bulk exactly when it reaches `bulkLen`. */
  lemma RunStep(cfg: Config, sizeOf: seq<Value> -> int, st: TrackerState, stream: string, x: Value, now: int, t0: int)
    requires cfg.bulkLen >= 1
    requires forall b :: sizeOf(b) < cfg.bulkSize
    requires t0 <= now < t0 + cfg.flushInterval
    requires OneStream(cfg, st, stream, t0)
    ensures var st1 := Added(st, stream, x, now);
      var sent := SendsOver(cfg, sizeOf, st1, false, now, st1.streams);
      var st2 := Processed(cfg, sizeOf, st1, false, now);
      OneStream(cfg, st2, stream, t0) &&
      Flatten(sent) + Storage.Pending(st2.data, stream) == Storage.Pending(st.data, stream) + [x] &&
      (forall i :: 0 <= i < |sent| ==> sent[i].0 == stream && |sent[i].1| == cfg.bulkLen)
  {
    var p := Storage.Pending(st.data, stream);
    var st1 := Added(st, stream, x, now);
    AddedOneStream(cfg, st, stream, x, now, t0);
    SingleStreamPass(cfg, sizeOf, st1, false, now, stream);
    if Due(cfg, sizeOf, st1, stream, false, now) {
      assert |p| + 1 == cfg.bulkLen;
      assert Flatten([(stream, p + [x])]) == p + [x] + Flatten([]);
    } else {
      assert |p| + 1 < cfg.bulkLen;
    }
  }

  /** Tracking to one stream within one flush interval, with events too small
      to reach the byte limit, sends bulks of exactly `bulkLen` events, in
      order, each event exactly once; what was not sent is still pending. */
  lemma {:induction false} RunSendsFullBulks(cfg: Config, sizeOf: seq<Value> -> int, st: TrackerState, stream: string, xs: seq<Value>, ts: seq<int>, t0: int)
    requires |ts| == |xs| && cfg.bulkLen >= 1
    requires forall b :: sizeOf(b) < cfg.bulkSize
    requires forall i :: 0 <= i < |ts| ==> t0 <= ts[i] < t0 + cfg.flushInterval
    requires OneStream(cfg, st, stream, t0)
    ensures var r := Run(cfg, sizeOf, st, stream, xs, ts);
      OneStream(cfg, r.0, stream, t0) &&
      Flatten(r.1) + Storage.Pending(r.0.data, stream) == Storage.Pending(st.data, stream) + xs &&
      (forall i :: 0 <= i < |r.1| ==> r.1[i].0 == stream && |r.1[i].1| == cfg.bulkLen)
    decreases |xs|
  {
    if xs != [] {
      var st1 := Added(st, stream, xs[0], ts[0]);
      var sent := SendsOver(cfg, sizeOf, st1, false, ts[0], st1.streams);
      var st2 := Processed(cfg, sizeOf, st1, false, ts[0]);
      RunStep(cfg, sizeOf, st, stream, xs[0], ts[0], t0);
      assert forall i :: 0 <= i < |ts[1..]| ==> ts[1..][i] == ts[i + 1];
      RunSendsFullBulks(cfg, sizeOf, st2, stream, xs[1..], ts[1..], t0);
      var rest := Run(cfg, sizeOf, st2, stream, xs[1..], ts[1..]);
      assert Run(cfg, sizeOf, st, stream, xs, ts) == (rest.0, sent + rest.1);
      JoinRuns(Storage.Pending(st.data, stream), xs, sent, Storage.Pending(st2.data, stream), rest.1,
               Storage.Pending(rest.0.data, stream), stream, cfg.bulkLen);
    }
  }

  /** Gluing the first step of a run to the rest of it. */
  lemma JoinRuns(p: seq<Value>, xs: seq<Value>, sent: seq<(string, seq<Value>)>, p2: seq<Value>,
                 more: seq<(string, seq<Value>)>, left: seq<Value>, stream: string, l: int)
    requires xs != []
    requires Flatten(sent) + p2 == p + [xs[0]]
    requires Flatten(more) + left == p2 + xs[1..]
    requires forall i :: 0 <= i < |sent| ==> sent[i].0 == stream && |sent[i].1| == l
    requires forall i :: 0 <= i < |more| ==> more[i].0 == stream && |more[i].1| == l
    ensures Flatten(sent + more) + left == p + xs
    ensures forall i :: 0 <= i < |sent + more| ==> (sent + more)[i].0 == stream && |(sent + more)[i].1| == l
  {
    FlattenAppend(sent, more);
    AppendAssoc(Flatten(sent), Flatten(more), left);
    AppendAssoc(Flatten(sent), p2, xs[1..]);
    AppendAssoc(p, [xs[0]], xs[1..]);
    assert [xs[0]] + xs[1..] == xs;
  }

  /** 200 events tracked to one stream with a bulk length of 20 and a long
      interval go out as exactly 10 bulks and leave nothing behind. */
  lemma TwoHundredEventsTenBulks(cfg: Config, sizeOf: seq<Value> -> int, stream: string, xs: seq<Value>, ts: seq<int>)
    requires cfg.bulkLen == 20 && |xs| == 200 && |ts| == 200
    requires forall b :: sizeOf(b) < cfg.bulkSize
    requires forall i :: 0 <= i < 200 ==> 0 <= ts[i] < cfg.flushInterval
    ensures var r := Run(cfg, sizeOf, TrackerState(map[], [], map[]), stream, xs, ts);
      |r.1| == 10 && Flatten(r.1) == xs && Storage.Pending(r.0.data, stream) == []
  {
    var st := TrackerState(map[], [], map[]);
    RunSendsFullBulks(cfg, sizeOf, st, stream, xs, ts, 0);
    var r := Run(cfg, sizeOf, st, stream, xs, ts);
    FlattenLength(r.1, 20);
    assert Storage.Pending(st.data, stream) == [];
    assert [] + xs == xs;
    TwentiesOfTwoHundred(|r.1|, |Storage.Pending(r.0.data, stream)|);
    assert Flatten(r.1) + [] == Flatten(r.1);
  }

  lemma TwentiesOfTwoHundred(bulks: nat, left: nat)
    requires bulks * 20 + left == 200 && left < 20
    ensures bulks == 10 && left == 0
  {
  }

  lemma {:induction false} FlattenLength(sends: seq<(string, seq<Value>)>, l: nat)
    requires forall i :: 0 <= i < |sends| ==> |sends[i].1| == l
    ensures |Flatten(sends)| == |sends| * l
  {
    if sends != [] {
      FlattenLength(sends[1..], l);
    }
  }

  // ---------------------------------------------------------------------------
  // Sending with retries

  /** How one `_send` ends: the value its promise resolves with, or the error
      handed to `onError`; and how many `putEvents` attempts it made. */
  datatype Delivery = Delivered(response: Option<Response>) | Reported(error: Thrown)
  datatype SendReport = SendReport(result: Delivery, attempts: nat)

  /** `_send`'s payload `{stream, data}`. */
  function PayloadFields(stream: string, batch: seq<Value>): Request.Fields
  {
    Request.Fields("", "", stream, Arr(batch), "", "", false)
  }

  /** The retry test of `_send`'s catch handler: `err.status >= 500`. */
  predicate ServerError(e: Thrown)
  {
    StatusOf(e).Some? && StatusOf(e).value >= 500
  }

  function Attempt(o: Atom.Options, stream: string, batch: seq<Value>, reply: Fetched, codec: Codec): Outcome
  {
    Atom.PutEventsExchange(o, PayloadFields(stream, batch), reply, codec).outcome
  }

  /** `_send` from attempt `n` on. A rejection with a 5xx status is retried
      while retries remain; any other rejection, a synchronous throw, or the
      last 5xx ends the send with that error. */
  function SendFrom(r: RetryOptions, o: Atom.Options, stream: string, batch: seq<Value>,
                    net: (string, nat) -> Fetched, codec: Codec, n: nat): (rep: SendReport)
    requires 1 <= n <= r.retries + 1
    ensures n <= rep.attempts <= r.retries + 1
    ensures rep.result.Reported? && ServerError(rep.result.error) && !Attempt(o, stream, batch, net(stream, rep.attempts), codec).Threw? ==>
              rep.attempts == r.retries + 1
    decreases r.retries + 1 - n
  {
    match Attempt(o, stream, batch, net(stream, n), codec)
    case Resolved(v) => SendReport(Delivered(v), n)
    case Threw(e) => SendReport(Reported(e), n)
    case Rejected(e) =>
      if ServerError(e) && n <= r.retries then SendFrom(r, o, stream, batch, net, codec, n + 1)
      else SendReport(Reported(e), n)
  }

  function SendSpec(r: RetryOptions, o: Atom.Options, stream: string, batch: seq<Value>,
                    net: (string, nat) -> Fetched, codec: Codec): SendReport
  {
    SendFrom(r, o, stream, batch, net, codec, 1)
  }

  /** A bulk the SDK accepts: what `_process` and `flush` hand to `_send`. */
  predicate Sendable(stream: string, batch: seq<Value>, codec: Codec)
  {
    stream != "" && batch != [] && codec.stringify(Arr(batch)).Some?
  }

  /** For an accepted bulk, each attempt settles as the server's answer says. */
  lemma AttemptSettles(o: Atom.Options, stream: string, batch: seq<Value>, reply: Fetched, codec: Codec)
    requires Sendable(stream, batch, codec)
    ensures Attempt(o, stream, batch, reply, codec) == Request.Settle(reply, codec)
  {
    Atom.BulkGoesToBulkEndpoint(o, PayloadFields(stream, batch), reply, codec);
  }

  /** Server errors on every attempt before `k` and success at `k` (within the
      retry budget) deliver the response after exactly `k` attempts. */
  lemma {:induction false} RecoversAfterServerErrors(r: RetryOptions, o: Atom.Options, stream: string, batch: seq<Value>,
                                                     net: (string, nat) -> Fetched, codec: Codec, n: nat, k: nat)
    requires Sendable(stream, batch, codec)
    requires 1 <= n <= k <= r.retries + 1
    requires forall i :: n <= i < k ==> net(stream, i).Replied? && 500 <= net(stream, i).statusCode < 600
    requires net(stream, k).Replied? && net(stream, k).statusCode == 200
    requires net(stream, k).body == Undefined || codec.stringify(net(stream, k).body).Some?
    ensures var body := net(stream, k).body;
      SendFrom(r, o, stream, batch, net, codec, n) ==
      SendReport(Delivered(Some(Response(if body == Undefined then Undefined else Str(codec.stringify(body).value), 200))), k)
    decreases k - n
  {
    AttemptSettles(o, stream, batch, net(stream, n), codec);
    if n < k {
      RecoversAfterServerErrors(r, o, stream, batch, net, codec, n + 1, k);
    }
  }

  /** Five 500s followed by success, with the default budget of ten retries:
      the bulk is delivered on the sixth attempt. */
  lemma FiveServerErrorsThenSuccess(o: Atom.Options, stream: string, batch: seq<Value>, net: (string, nat) -> Fetched, codec: Codec)
    requires Sendable(stream, batch, codec)
    requires forall i :: 1 <= i < 6 ==> net(stream, i) == Replied(500, Str("Y U NO WORK?"))
    requires net(stream, 6) == Replied(200, Str("success")) && codec.stringify(Str("success")).Some?
    ensures SendSpec(DefaultRetry, o, stream, batch, net, codec).attempts == 6
    ensures SendSpec(DefaultRetry, o, stream, batch, net, codec).result.Delivered?
  {
    RecoversAfterServerErrors(DefaultRetry, o, stream, batch, net, codec, 1, 6);
  }

  /** A server that keeps answering 5xx is tried exactly `retries + 1` times,
      and the last error is what `onError` receives. */
  lemma {:induction false} GivesUpAfterAllRetries(r: RetryOptions, o: Atom.Options, stream: string, batch: seq<Value>,
                                                  net: (string, nat) -> Fetched, codec: Codec, n: nat)
    requires Sendable(stream, batch, codec)
    requires 1 <= n <= r.retries + 1
    requires forall i :: n <= i <= r.retries + 1 ==> net(stream, i).Replied? && 500 <= net(stream, i).statusCode < 600
    ensures var last := net(stream, r.retries + 1);
      SendFrom(r, o, stream, batch, net, codec, n) ==
      SendReport(Reported(AtomErr(AtomError(last.body, last.statusCode))), r.retries + 1)
    decreases r.retries + 1 - n
  {
    AttemptSettles(o, stream, batch, net(stream, n), codec);
    if n <= r.retries {
      GivesUpAfterAllRetries(r, o, stream, batch, net, codec, n + 1);
    }
  }

  /** A 4xx answer is not retried: the send ends at that attempt. */
  lemma ClientErrorIsFinal(r: RetryOptions, o: Atom.Options, stream: string, batch: seq<Value>,
                           net: (string, nat) -> Fetched, codec: Codec, n: nat)
    requires Sendable(stream, batch, codec)
    requires 1 <= n <= r.retries + 1
    requires net(stream, n).Replied? && 400 <= net(stream, n).statusCode < 500
    ensures SendFrom(r, o, stream, batch, net, codec, n) ==
            SendReport(Reported(AtomErr(AtomError(net(stream, n).body, net(stream, n).statusCode))), n)
  {
    AttemptSettles(o, stream, batch, net(stream, n), codec);
  }

  /** The errors `onError` receives during a pass, in order. */
  function ErrorOf(r: Option<SendReport>): seq<Thrown>
  {
    if r.Some? && r.value.result.Reported? then [r.value.result.error] else []
  }

  function Errors(results: seq<Option<SendReport>>): seq<Thrown>
  {
    if results == [] then []
    else Errors(results[..|results| - 1]) + ErrorOf(results[|results| - 1])
  }

  lemma AppendAssoc<T>(a: seq<T>, b: seq<T>, c: seq<T>)
    ensures a + b + c == a + (b + c)
  {
  }

  lemma ErrorsAppend(results: seq<Option<SendReport>>, r: Option<SendReport>)
    ensures Errors(results + [r]) == Errors(results) + ErrorOf(r)
  {
    assert (results + [r])[..|results|] == results;
  }

  const RequiredParameters := Foreign(Obj([("message", Str("Stream name and data are required parameters"))]))

  /** `data.length == 0` for the values `track` can be given (a number or a
      boolean has no length). */
  predicate LengthZero(v: Value)
  {
    match v
    case Str(s) => s == ""
    case Arr(items) => items == []
    case Obj(_) => LooselyZero(Field(v, "length"))
    case _ => false
  }

  /** `x == 0` under JavaScript's loose equality, for the values whose number
      form is plainly zero: 0, false, '', '0' and []. */
  predicate LooselyZero(x: Value)
  {
    match x
    case Num(n) => n == 0
    case Bool(b) => !b
    case Str(s) => s == "" || s == "0"
    case Arr(items) => items == []
    case _ => false
  }

  /** `track`'s argument test: what it throws, if anything. Reading `length`
      of null throws a TypeError. */
  function TrackCheck(stream: Option<string>, data: Value): (r: Option<Thrown>)
    ensures r.None? <==> stream.Some? && stream.value != "" && data != Undefined && data != Null && !LengthZero(data)
    ensures r.Some? && r.value != RequiredParameters ==> stream.Some? && stream.value != "" && data == Null
    ensures stream.Some? && stream.value != "" && data == Null ==> r == Some(Foreign(TypeErrorValue))
    ensures r.Some? && !(stream.Some? && stream.value != "" && data == Null) ==> r == Some(RequiredParameters)
  {
    if stream.None? || stream.value == "" || data == Undefined then Some(RequiredParameters)
    else if data == Null then Some(Foreign(TypeErrorValue))
    else if LengthZero(data) then Some(RequiredParameters)
    else None
  }

  /** What `flush` returns: one stream's send, or a whole pass. */
  datatype FlushResult = One(report: Option<SendReport>) | All(results: seq<Option<SendReport>>)

  class Tracker {
    const config: Config
    /** `object-sizeof`, the byte size of a bulk. */
    const sizeOf: seq<Value> -> int
    const codec: Codec
    const backlog: Storage.LocalStore<Value>
    const atom: Atom.IronSourceAtom
    /** `streamTimers`: when each stream was last armed or flushed. */
    var streamTimers: map<string, int>
    /** The values `onError` has been called with, oldest first. */
    var reported: seq<Thrown>
    var exitHandled: bool

    ghost predicate Valid()
      reads this, backlog
    {
      backlog.Valid()
    }

    ghost function Snapshot(): TrackerState
      reads this, backlog
    {
      TrackerState(backlog.data, backlog.streams, streamTimers)
    }

    constructor(params: TrackerParams, sizeOf: seq<Value> -> int, codec: Codec)
      ensures Valid() && fresh(backlog)
      ensures config == Normalize(params) && this.sizeOf == sizeOf && this.codec == codec
      ensures atom.options == Atom.MergeOptions(params.atom)
      ensures Snapshot() == TrackerState(map[], [], map[]) && reported == [] && !exitHandled
    {
      config := Normalize(params);
      this.sizeOf := sizeOf;
      this.codec := codec;
      backlog := new Storage.LocalStore();
      atom := new Atom.IronSourceAtom(params.atom);
      streamTimers := map[];
      reported := [];
      exitHandled := false;
    }

    /** `_shouldFlush(stream)` at time `now`. */
    predicate ShouldFlush(stream: string, now: int)
      reads this, backlog
    {
      FlushDue(config, sizeOf, Storage.Pending(backlog.data, stream), IntervalDue(config, streamTimers, stream, now))
    }

    /** `_send(stream, data)`: `putEvents({stream, data})` and retry on 5xx. */
    method Send(stream: string, batch: seq<Value>, net: (string, nat) -> Fetched) returns (report: SendReport)
      modifies this
      ensures report == SendSpec(config.retry, atom.options, stream, batch, net, codec)
      ensures reported == old(reported) + (if report.result.Reported? then [report.result.error] else [])
      ensures streamTimers == old(streamTimers) && exitHandled == old(exitHandled)
    {
      var payload := new Request.Params(PayloadFields(stream, batch));
      var n := 1;
      var call, o := atom.PutEvents(payload, net(stream, n), codec);
      while o.Rejected? && ServerError(o.reason) && n <= config.retry.retries
        invariant 1 <= n <= config.retry.retries + 1
        invariant payload.v == PayloadFields(stream, batch)
        invariant reported == old(reported) && streamTimers == old(streamTimers) && exitHandled == old(exitHandled)
        invariant o == Attempt(atom.options, stream, batch, net(stream, n), codec)
        invariant SendSpec(config.retry, atom.options, stream, batch, net, codec) ==
                  SendFrom(config.retry, atom.options, stream, batch, net, codec, n)
        decreases config.retry.retries + 1 - n
      {
        n := n + 1;
        call, o := atom.PutEvents(payload, net(stream, n), codec);
      }
      match o
      case Resolved(v) =>
        report := SendReport(Delivered(v), n);
      case Rejected(e) =>
        report := SendReport(Reported(e), n);
        reported := reported + [e];
      case Threw(e) =>
        report := SendReport(Reported(e), n);
        reported := reported + [e];
    }

    /** What `_process` yields for stream `k` when the pass started in `st`:
        nothing, or the report of sending its whole backlog. */
    function Expected(st: TrackerState, force: bool, now: int, net: (string, nat) -> Fetched, k: string): Option<SendReport>
    {
      if Due(config, sizeOf, st, k, force, now)
      then Some(SendSpec(config.retry, atom.options, k, Storage.Pending(st.data, k), net, codec))
      else None
    }

    function ExpectedAll(st: TrackerState, force: bool, now: int, net: (string, nat) -> Fetched, keys: seq<string>): (rs: seq<Option<SendReport>>)
      ensures |rs| == |keys|
    {
      if keys == [] then []
      else ExpectedAll(st, force, now, net, keys[..|keys| - 1]) + [Expected(st, force, now, net, keys[|keys| - 1])]
    }

    /** The pass yields one entry per stream, in stream order: entry `i` is
        what stream `keys[i]` produces on its own. */
    lemma {:induction false} ExpectedAllAt(st: TrackerState, force: bool, now: int, net: (string, nat) -> Fetched, keys: seq<string>)
      ensures forall i :: 0 <= i < |keys| ==> ExpectedAll(st, force, now, net, keys)[i] == Expected(st, force, now, net, keys[i])
    {
      if keys != [] {
        ExpectedAllAt(st, force, now, net, keys[..|keys| - 1]);
      }
    }

    lemma ExpectedAllAppend(st: TrackerState, force: bool, now: int, net: (string, nat) -> Fetched, keys: seq<string>, k: string)
      ensures ExpectedAll(st, force, now, net, keys + [k]) == ExpectedAll(st, force, now, net, keys) + [Expected(st, force, now, net, k)]
    {
      assert (keys + [k])[..|keys|] == keys;
    }

    /** Handling stream `k` in a pass: if it is due, reset its timer, take its
        whole backlog and send it. */
    method Step(k: string, force: bool, now: int, net: (string, nat) -> Fetched) returns (r: Option<SendReport>)
      requires Valid() && k in backlog.data
      modifies this, backlog
      ensures Valid() && backlog.streams == old(backlog.streams)
      ensures var due := Due(config, sizeOf, old(Snapshot()), k, force, now);
        Snapshot() == (if due then TrackerState(old(backlog.data)[k := []], old(backlog.streams), old(streamTimers)[k := now])
                       else old(Snapshot())) &&
        r == (if due then Some(SendSpec(config.retry, atom.options, k, old(backlog.data)[k], net, codec)) else None)
      ensures reported == old(reported) + ErrorOf(r)
      ensures exitHandled == old(exitHandled)
    {
      r := None;
      var due := ShouldFlush(k, now) || (force && !backlog.IsEmpty(k));
      if due {
        streamTimers := streamTimers[k := now];
        var taken := backlog.Take(k);
        assert taken.Ok?;
        var report := Send(k, taken.value, net);
        r := Some(report);
      }
    }

    /** One iteration of `_process`: stream `keys[i]`. */
    method ProcessOne(keys: seq<string>, i: nat, force: bool, now: int, net: (string, nat) -> Fetched,
                      results: seq<Option<SendReport>>, ghost st0: TrackerState, ghost log0: seq<Thrown>)
      returns (results': seq<Option<SendReport>>)
      requires Valid() && backlog.streams == keys && i < |keys|
      requires Snapshot() == ProcessedUpTo(config, sizeOf, st0, force, now, keys[..i])
      requires results == ExpectedAll(st0, force, now, net, keys[..i])
      requires reported == log0 + Errors(results)
      modifies this, backlog
      ensures Valid() && backlog.streams == keys
      ensures Snapshot() == ProcessedUpTo(config, sizeOf, st0, force, now, keys[..i + 1])
      ensures results' == ExpectedAll(st0, force, now, net, keys[..i + 1])
      ensures reported == log0 + Errors(results')
      ensures exitHandled == old(exitHandled)
    {
      var k := keys[i];
      PrefixStep(keys, i);
      ProcessedStep(config, sizeOf, st0, force, now, keys[..i], k);
      DueHere(config, sizeOf, st0, Snapshot(), k, force, now);
      ExpectedAllAppend(st0, force, now, net, keys[..i], k);
      var r := Step(k, force, now, net);
      ErrorsAppend(results, r);
      AppendAssoc(log0, Errors(results), ErrorOf(r));
      results' := results + [r];
    }

    /** `_process(force)`: every stream, in the order it was first added, is
        tested; a due stream has its timer reset and its whole backlog sent. */
    method Process(force: bool, now: int, net: (string, nat) -> Fetched) returns (results: seq<Option<SendReport>>)
      requires Valid()
      modifies this, backlog
      ensures Valid()
      ensures Snapshot() == Processed(config, sizeOf, old(Snapshot()), force, now)
      ensures results == ExpectedAll(old(Snapshot()), force, now, net, old(backlog.streams))
      ensures reported == old(reported) + Errors(results)
      ensures exitHandled == old(exitHandled)
    {
      ghost var st0 := Snapshot();
      ghost var log0 := reported;
      ProcessedNothing(config, sizeOf, st0, force, now);
      var keys := backlog.Keys();
      results := [];
      assert keys[..0] == [];
      var i := 0;
      while i < |keys|
        invariant 0 <= i <= |keys|
        invariant Valid() && backlog.streams == keys
        invariant Snapshot() == ProcessedUpTo(config, sizeOf, st0, force, now, keys[..i])
        invariant results == ExpectedAll(st0, force, now, net, keys[..i])
        invariant reported == log0 + Errors(results)
        invariant exitHandled == old(exitHandled)
      {
        results := ProcessOne(keys, i, force, now, net, results, st0, log0);
        i := i + 1;
      }
      assert keys[..i] == keys;
    }

    /** `track(stream, data)`: reject a missing stream or empty data; else add
        the event, arm the stream's timer if unset, and run a pass. */
    method Track(stream: Option<string>, data: Value, now: int, net: (string, nat) -> Fetched)
      returns (r: Result<seq<Option<SendReport>>, Thrown>)
      requires Valid()
      modifies this, backlog
      ensures Valid()
      ensures TrackCheck(stream, data).Some? ==>
        r == Err(TrackCheck(stream, data).value) && Snapshot() == old(Snapshot()) && reported == old(reported)
      ensures TrackCheck(stream, data).None? ==>
        var added := Added(old(Snapshot()), stream.value, data, now);
        r.Ok? && Snapshot() == Processed(config, sizeOf, added, false, now) &&
        r.value == ExpectedAll(added, false, now, net, added.streams) &&
        |r.value| == |added.streams| && reported == old(reported) + Errors(r.value)
      ensures exitHandled == old(exitHandled)
    {
      var check := TrackCheck(stream, data);
      if check.Some? {
        return Err(check.value);
      }
      Accept(stream.value, data, now);
      var results := Process(false, now, net);
      return Ok(results);
    }

    /** The part of `track` before the pass: add the event and arm the
        stream's timer if it is unset. */
    method Accept(s: string, data: Value, now: int)
      requires Valid()
      modifies this, backlog
      ensures Valid()
      ensures Snapshot() == Added(old(Snapshot()), s, data, now)
      ensures reported == old(reported) && exitHandled == old(exitHandled)
    {
      var _ := backlog.Add(s, data);
      if s !in streamTimers || streamTimers[s] == 0 {
        streamTimers := streamTimers[s := now];
      }
    }

    /** `flush(batchStream)`: a named (non-empty) stream is sent if it has
        events, without touching its timer; no name forces a whole pass. */
    method Flush(batchStream: Option<string>, now: int, net: (string, nat) -> Fetched) returns (r: FlushResult)
      requires Valid()
      modifies this, backlog
      ensures Valid()
      ensures exitHandled == old(exitHandled)
      ensures (batchStream.None? || batchStream.value == "") ==>
        r.All? && Snapshot() == Processed(config, sizeOf, old(Snapshot()), true, now) &&
        r.results == ExpectedAll(old(Snapshot()), true, now, net, old(backlog.streams)) &&
        reported == old(reported) + Errors(r.results)
      ensures batchStream.Some? && batchStream.value != "" ==>
        var s := batchStream.value;
        r.One? && streamTimers == old(streamTimers) && backlog.streams == old(backlog.streams) &&
        (Storage.Pending(old(backlog.data), s) == [] ==>
           r.report.None? && backlog.data == old(backlog.data) && reported == old(reported)) &&
        (Storage.Pending(old(backlog.data), s) != [] ==>
           backlog.data == Storage.Emptied(old(backlog.data), s) &&
           r.report == Some(SendSpec(config.retry, atom.options, s, old(backlog.data)[s], net, codec)) &&
           reported == old(reported) + Errors([r.report]))
    {
      if batchStream.Some? && batchStream.value != "" {
        var s := batchStream.value;
        if !backlog.IsEmpty(s) {
          var taken := backlog.Take(s);
          assert taken.Ok?;
          var report := Send(s, taken.value, net);
          assert Errors([Some(report)]) == Errors([]) + (if report.result.Reported? then [report.result.error] else []);
          return One(Some(report));
        }
        return One(None);
      }
      var results := Process(true, now, net);
      return All(results);
    }

    /** `_exitHandler`: when flushing on exit is configured, the first exit
        signal runs one unforced pass; later signals do nothing. */
    method ExitHandler(now: int, net: (string, nat) -> Fetched) returns (r: Option<seq<Option<SendReport>>>)
      requires Valid()
      modifies this, backlog
      ensures Valid()
      ensures r.Some? <==> config.flushOnExit && !old(exitHandled)
      ensures r.Some? ==> exitHandled && Snapshot() == Processed(config, sizeOf, old(Snapshot()), false, now) &&
                          r.value == ExpectedAll(old(Snapshot()), false, now, net, old(backlog.streams)) &&
                          reported == old(reported) + Errors(r.value)
      ensures r.None? ==> exitHandled == old(exitHandled) && Snapshot() == old(Snapshot()) && reported == old(reported)
    {
      if !config.flushOnExit || exitHandled {
        return None;
      }
      exitHandled := true;
      var results := Process(false, now, net);
      return Some(results);
    }
  }
}
