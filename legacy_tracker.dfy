/**
 * The earlier SDK's `Tracker` (code/src/lib/tracker.class.js). `track` stores an
 * event and either flushes its stream at once, when the stream's backlog is
 * long or large enough, or arms the one global timer if none is armed.
 * `flush` has three call shapes: a given batch, one stream's backlog, or every
 * stream. A send that fails with a status of 500 or more is retried after a
 * delay that doubles each time, until the delay reaches ten minutes.
 *
 * The settled `putEvents` promise of each attempt is a parameter:
 * `net(stream, n)` is how attempt `n` (from 1) of a send to `stream` ends.
 * Timer callbacks are explicit calls to `TimerFires`, waits are recorded
 * rather than waited for.
 */
module LegacyTracking {
  import opened Utils
  import Storage
  import Stores

  const FLUSH_INTERVAL := 10000
  const BULK_LEN := 10000
  const BULK_SIZE := 64 * 1024
  /** `10 * 60 * 1000`: the delay at which retrying stops. */
  const RETRY_LIMIT := 600000

  /** The constructor options that shape the tracker; None is `undefined`. */
  datatype TrackerParams = TrackerParams(flushInterval: Option<int>, bulkLen: Option<int>,
                                         bulkSize: Option<int>, flushOnExit: Option<bool>)

  datatype Config = Config(flushInterval: int, bulkLen: int, bulkSize: int, flushOnExit: bool)

  /** A number option given and not 0 (truthy). */
  predicate Given(v: Option<int>)
  {
    v.Some? && v.value != 0
  }

  /** The constructor's defaults: seconds and kilobytes are scaled when given. */
  function Normalize(p: TrackerParams): (c: Config)
    ensures Given(p.flushInterval) ==> c.flushInterval == p.flushInterval.value * 1000
    ensures !Given(p.flushInterval) ==> c.flushInterval == FLUSH_INTERVAL
    ensures Given(p.bulkLen) ==> c.bulkLen == p.bulkLen.value
    ensures !Given(p.bulkLen) ==> c.bulkLen == BULK_LEN
    ensures Given(p.bulkSize) ==> c.bulkSize == p.bulkSize.value * 1024
    ensures !Given(p.bulkSize) ==> c.bulkSize == BULK_SIZE
    ensures c.flushOnExit <==> p.flushOnExit == Some(true)
  {
    Config(if Given(p.flushInterval) then p.flushInterval.value * 1000 else FLUSH_INTERVAL,
           if Given(p.bulkLen) then p.bulkLen.value else BULK_LEN,
           if Given(p.bulkSize) then p.bulkSize.value * 1024 else BULK_SIZE,
           p.flushOnExit == Some(true))
  }

  /** With no options: ten seconds, 10000 events, 64 KiB, no flush on exit;
      zero counts as not given. */
  lemma DefaultConfig()
    ensures Normalize(TrackerParams(None, None, None, None)) == Config(10000, 10000, 65536, false)
    ensures Normalize(TrackerParams(Some(0), Some(0), Some(0), Some(false))) == Config(10000, 10000, 65536, false)
    ensures Normalize(TrackerParams(Some(2), Some(50), Some(8), Some(true))) == Config(2000, 50, 8192, true)
  {
  }

  /** How one send ended: delivered, dropped after an error that is not a
      server error, or given up after retrying server errors. */
  datatype Delivery = Sent(response: Response) | Dropped(error: Thrown) | GaveUp(error: Thrown)

  /** A send's outcome, the number of attempts it made and the delays it
      waited between them. */
  datatype SendReport = SendReport(delivery: Delivery, attempts: nat, waits: seq<nat>)

  /** One batch handed to `_send`. */
  datatype Sending = Sending(stream: string, batch: seq<Value>, report: SendReport)

  predicate ServerError(e: Thrown)
  {
    StatusOf(e).Some? && StatusOf(e).value >= 500
  }

  /** The measure the retries decrease: the room left below ten minutes. */
  function Room(timeout: Option<nat>): nat
  {
    if timeout.Some? && timeout.value < RETRY_LIMIT then RETRY_LIMIT - timeout.value else 0
  }

  /** `_send(stream, data, timeout)` from attempt `n`: retry a server error
      after `timeout` with the timeout doubled while it is below ten minutes;
      an `undefined` timeout is never below it. */
  function SendFrom(stream: string, net: (string, nat) -> Result<Response, Thrown>,
                    timeout: Option<nat>, n: nat): (r: SendReport)
    requires timeout.Some? ==> timeout.value >= 1
    requires n >= 1
    ensures r.attempts >= n && |r.waits| == r.attempts - n
    ensures forall i :: 0 <= i < |r.waits| ==> r.waits[i] < RETRY_LIMIT
    ensures r.delivery.Sent? <==> net(stream, r.attempts).Ok?
    ensures r.delivery.Dropped? ==> net(stream, r.attempts) == Err(r.delivery.error) && !ServerError(r.delivery.error)
    ensures r.delivery.GaveUp? ==> net(stream, r.attempts) == Err(r.delivery.error) && ServerError(r.delivery.error)
    decreases Room(timeout)
  {
    match net(stream, n)
    case Ok(response) => SendReport(Sent(response), n, [])
    case Err(e) =>
      if !ServerError(e) then SendReport(Dropped(e), n, [])
      else if timeout.Some? && timeout.value < RETRY_LIMIT then
        var rest := SendFrom(stream, net, Some(2 * timeout.value), n + 1);
        SendReport(rest.delivery, rest.attempts, [timeout.value] + rest.waits)
      else SendReport(GaveUp(e), n, [])
  }

  /** The delays a send starting at `t` waits when every attempt is a server
      error: `t`, `2t`, `4t`, … while below ten minutes. */
  function Doubling(t: nat): (ds: seq<nat>)
    requires t >= 1
    ensures forall i :: 0 <= i < |ds| ==> ds[i] < RETRY_LIMIT
    decreases Room(Some(t))
  {
    if t < RETRY_LIMIT then [t] + Doubling(2 * t) else []
  }

  ghost predicate AlwaysServerError(stream: string, net: (string, nat) -> Result<Response, Thrown>)
  {
    forall n: nat :: n >= 1 ==> net(stream, n).Err? && ServerError(net(stream, n).error)
  }

  /** Under persistent server errors a send waits exactly the doubling delays
      and then gives up. */
  lemma {:induction false} PersistentServerErrors(stream: string, net: (string, nat) -> Result<Response, Thrown>, t: nat, n: nat)
    requires t >= 1 && n >= 1
    requires AlwaysServerError(stream, net)
    ensures var r := SendFrom(stream, net, Some(t), n);
      r.delivery.GaveUp? && r.waits == Doubling(t) && r.attempts == n + |Doubling(t)|
    decreases Room(Some(t))
  {
    assert net(stream, n).Err?;
    if t < RETRY_LIMIT {
      PersistentServerErrors(stream, net, 2 * t, n + 1);
    }
  }

  /** Starting from one second, the delays are 1, 2, 4, …, 512 seconds: eleven
      attempts, then the send is given up. */
  lemma TenMinutesOfRetries(stream: string, net: (string, nat) -> Result<Response, Thrown>)
    requires AlwaysServerError(stream, net)
    ensures var r := SendFrom(stream, net, Some(1000), 1);
      r.delivery == GaveUp(net(stream, 11).error) && r.attempts == 11 &&
      r.waits == [1000, 2000, 4000, 8000, 16000, 32000, 64000, 128000, 256000, 512000]
  {
    DoublingFromOneSecond();
    PersistentServerErrors(stream, net, 1000, 1);
  }

  /** From one second, the delays double ten times before reaching the limit. */
  lemma DoublingFromOneSecond()
    ensures Doubling(1000) == [1000, 2000, 4000, 8000, 16000, 32000, 64000, 128000, 256000, 512000]
  {
    LastDoublings();
    assert Doubling(16000) == [16000, 32000] + Doubling(64000);
    assert Doubling(1000) == [1000, 2000, 4000, 8000] + Doubling(16000);
  }

  lemma LastDoublings()
    ensures Doubling(64000) == [64000, 128000, 256000, 512000]
  {
    assert Doubling(1024000) == [];
    assert Doubling(256000) == [256000, 512000];
  }

  /** A send that meets server errors until attempt `m` succeeds delivers at
      attempt `m`, provided the doubling delays last that long. */
  lemma {:induction false} RecoversWithinLimit(stream: string, net: (string, nat) -> Result<Response, Thrown>, t: nat, n: nat, m: nat)
    requires t >= 1 && 1 <= n <= m
    requires forall j :: n <= j < m ==> net(stream, j).Err? && ServerError(net(stream, j).error)
    requires net(stream, m).Ok?
    requires m - n <= |Doubling(t)|
    ensures var r := SendFrom(stream, net, Some(t), n);
      r == SendReport(Sent(net(stream, m).value), m, Doubling(t)[..m - n])
    decreases m - n
  {
    if n < m {
      assert net(stream, n).Err?;
      assert t < RETRY_LIMIT;
      RecoversWithinLimit(stream, net, 2 * t, n + 1, m);
      assert Doubling(t)[..m - n] == [t] + Doubling(2 * t)[..m - (n + 1)];
    }
  }

  /** A send with no timeout, the shape `flush(stream)` uses, makes one
      attempt whatever happens. */
  lemma UntimedSendIsSingle(stream: string, net: (string, nat) -> Result<Response, Thrown>)
    ensures SendFrom(stream, net, None, 1).attempts == 1
    ensures SendFrom(stream, net, None, 1).waits == []
  {
  }

  /** An error below 500 is never retried. */
  lemma ClientErrorIsDropped(stream: string, net: (string, nat) -> Result<Response, Thrown>, t: Option<nat>)
    requires t.Some? ==> t.value >= 1
    requires net(stream, 1).Err? && !ServerError(net(stream, 1).error)
    ensures SendFrom(stream, net, t, 1) == SendReport(Dropped(net(stream, 1).error), 1, [])
  {
  }

  /** The sends `flush()` makes for one key: its backlog, unless it is empty,
      or unless the key is "" — `flush("", batch)` is no batch call, since ""
      is falsy, and re-enters the flush of every key, so that batch is taken
      and never sent. */
  function FlushedKey(m: map<string, seq<Value>>, k: string, net: (string, nat) -> Result<Response, Thrown>): seq<Sending>
  {
    if Storage.Pending(m, k) == [] || k == "" then []
    else [Sending(k, m[k], SendFrom(k, net, Some(1000), 1))]
  }

  /** The sends of `flush()` over `keys`, in order. */
  function FlushedAll(m: map<string, seq<Value>>, keys: seq<string>, net: (string, nat) -> Result<Response, Thrown>): seq<Sending>
    decreases |keys|
  {
    if keys == [] then [] else FlushedAll(m, keys[..|keys| - 1], net) + FlushedKey(m, keys[|keys| - 1], net)
  }

  /** `flush()` sends each named non-empty backlog once, with its own events,
      and nothing else. */
  lemma {:induction false} FlushedAllSendsBacklogs(m: map<string, seq<Value>>, keys: seq<string>, net: (string, nat) -> Result<Response, Thrown>)
    ensures forall x :: x in FlushedAll(m, keys, net) ==>
      x.stream in keys && x.stream != "" && x.batch == Storage.Pending(m, x.stream) && x.batch != [] &&
      x.report == SendFrom(x.stream, net, Some(1000), 1)
    ensures forall k :: k in keys && k != "" && Storage.Pending(m, k) != [] ==>
      Sending(k, m[k], SendFrom(k, net, Some(1000), 1)) in FlushedAll(m, keys, net)
    decreases |keys|
  {
    if keys != [] {
      var init := keys[..|keys| - 1];
      FlushedAllSendsBacklogs(m, init, net);
      assert keys == init + [keys[|keys| - 1]];
      forall k | k in keys
        ensures k in init || k == keys[|keys| - 1]
      {
      }
    }
  }

  /** The backlog after `flush()` has taken every key in `done`. */
  function TakenAll(m: map<string, seq<Value>>, done: seq<string>): (r: map<string, seq<Value>>)
    ensures r.Keys == m.Keys
  {
    map k | k in m :: if k in done then [] else m[k]
  }

  class Tracker {
    const config: Config
    const sizeOf: seq<Value> -> int
    const store: Stores.LocalStore<Value>
    /** Whether `this.timer` holds a timer. */
    var timerSet: bool
    /** Timer callbacks armed and not yet run, in the order they will fire:
        each flushes the stream it was armed for. Clearing `this.timer` does
        not cancel them. */
    var armed: seq<string>
    var exitHandled: bool

    ghost predicate Valid()
      reads this, store
    {
      store.Valid()
    }

    /** `_shouldFlush(d)`: long or large enough, with no emptiness test. */
    predicate ShouldFlush(d: seq<Value>)
    {
      |d| >= config.bulkLen || sizeOf(d) >= config.bulkSize
    }

    constructor(p: TrackerParams, sizeOf: seq<Value> -> int)
      ensures Valid() && fresh(store)
      ensures config == Normalize(p) && this.sizeOf == sizeOf
      ensures store.data == map[] && store.keys == []
      ensures !timerSet && armed == [] && !exitHandled
    {
      config := Normalize(p);
      this.sizeOf := sizeOf;
      store := new Stores.LocalStore();
      timerSet := false;
      armed := [];
      exitHandled := false;
    }

    /** `_send(stream, data, timeout)`: the attempts one after another. */
    method Send(stream: string, batch: seq<Value>, timeout: Option<nat>,
                net: (string, nat) -> Result<Response, Thrown>) returns (report: SendReport)
      requires timeout.Some? ==> timeout.value >= 1
      ensures report == SendFrom(stream, net, timeout, 1)
    {
      var n := 1;
      var t := timeout;
      var waits: seq<nat> := [];
      while true
        invariant n >= 1 && (t.Some? ==> t.value >= 1)
        invariant var rest := SendFrom(stream, net, t, n);
          SendFrom(stream, net, timeout, 1) == SendReport(rest.delivery, rest.attempts, waits + rest.waits)
        decreases Room(t)
      {
        match net(stream, n)
        case Ok(response) =>
          return SendReport(Sent(response), n, waits);
        case Err(e) =>
          if !ServerError(e) {
            return SendReport(Dropped(e), n, waits);
          }
          if t.Some? && t.value < RETRY_LIMIT {
            ghost var rest := SendFrom(stream, net, Some(2 * t.value), n + 1);
            assert waits + ([t.value] + rest.waits) == (waits + [t.value]) + rest.waits;
            waits := waits + [t.value];
            t := Some(2 * t.value);
            n := n + 1;
          } else {
            return SendReport(GaveUp(e), n, waits);
          }
      }
    }

    /** One key of the loop of `flush()`. */
    method FlushKey(key: string, net: (string, nat) -> Result<Response, Thrown>,
                    ghost m0: map<string, seq<Value>>, ghost done: seq<string>) returns (more: seq<Sending>)
      requires Valid() && key in m0 && key !in done
      requires store.data == TakenAll(m0, done)
      modifies store
      ensures Valid() && store.keys == old(store.keys)
      ensures store.data == TakenAll(m0, done + [key])
      ensures more == FlushedKey(m0, key, net)
    {
      TakenAllStep(m0, done, key);
      more := [];
      if !store.IsEmpty(key) {
        var taken := store.Take(key);
        if key != "" {
          var report := Send(key, taken.value, Some(1000), net);
          more := [Sending(key, taken.value, report)];
        }
      }
    }

    /** The loop of `flush()`: take every non-empty key, send its batch. */
    method FlushAll(net: (string, nat) -> Result<Response, Thrown>) returns (sent: seq<Sending>)
      requires Valid()
      modifies store
      ensures Valid() && store.keys == old(store.keys)
      ensures store.data == TakenAll(old(store.data), old(store.keys))
      ensures sent == FlushedAll(old(store.data), old(store.keys), net)
    {
      var keys := store.Keys();
      ghost var m0 := store.data;
      assert TakenAll(m0, []) == m0;
      var i := 0;
      sent := [];
      while i < |keys|
        invariant 0 <= i <= |keys|
        invariant Valid() && store.keys == keys
        invariant store.data == TakenAll(m0, keys[..i])
        invariant sent == FlushedAll(m0, keys[..i], net)
      {
        PrefixStep(keys, i);
        var more := FlushKey(keys[i], net, m0, keys[..i]);
        sent := sent + more;
        i := i + 1;
      }
      assert keys[..i] == keys;
    }

    /** `flush(batchStream, batchData, timeout)`. An empty batch is truthy and
        reaches `_send`, where `putEvents` refuses it (throwing as written,
        returning `undefined` as intended); calling `.catch` on `undefined`
        throws a TypeError, either way before anything changes. */
    method Flush(batchStream: Option<string>, batchData: Option<seq<Value>>, timeout: Option<nat>,
                 net: (string, nat) -> Result<Response, Thrown>) returns (r: Result<seq<Sending>, Thrown>)
      requires Valid()
      modifies this, store
      ensures Valid() && store.keys == old(store.keys) && armed == old(armed) && exitHandled == old(exitHandled)
      ensures r.Err? <==> batchStream.Some? && batchStream.value != "" && batchData == Some([])
      ensures r.Err? ==> r.error == Foreign(TypeErrorValue) && store.data == old(store.data) && timerSet == old(timerSet)
      ensures batchStream.Some? && batchStream.value != "" && batchData.Some? && batchData.value != [] ==>
        var t := if timeout.None? || timeout.value == 0 then 1000 else timeout.value;
        r == Ok([Sending(batchStream.value, batchData.value, SendFrom(batchStream.value, net, Some(t), 1))]) &&
        store.data == old(store.data) && timerSet == old(timerSet)
      ensures batchStream.Some? && batchStream.value != "" && batchData.None? ==>
        var s := batchStream.value;
        timerSet == old(timerSet) &&
        (if Storage.Pending(old(store.data), s) == [] then r == Ok([]) && store.data == old(store.data)
         else r == Ok([Sending(s, old(store.data)[s], SendFrom(s, net, None, 1))]) &&
              store.data == Storage.Emptied(old(store.data), s))
      ensures batchStream.None? || batchStream.value == "" ==>
        r == Ok(FlushedAll(old(store.data), old(store.keys), net)) &&
        store.data == TakenAll(old(store.data), old(store.keys)) && !timerSet
    {
      var t := if timeout.None? || timeout.value == 0 then 1000 else timeout.value;
      if batchStream.Some? && batchStream.value != "" && batchData.Some? {
        if batchData.value == [] {
          return Err(Foreign(TypeErrorValue));
        }
        var report := Send(batchStream.value, batchData.value, Some(t), net);
        r := Ok([Sending(batchStream.value, batchData.value, report)]);
      } else if batchStream.Some? && batchStream.value != "" {
        var s := batchStream.value;
        r := Ok([]);
        if !store.IsEmpty(s) {
          var taken := store.Take(s);
          var report := Send(s, taken.value, None, net);
          r := Ok([Sending(s, taken.value, report)]);
        }
      } else {
        var all := FlushAll(net);
        r := Ok(all);
        timerSet := false;
      }
    }

    /** `track(stream, data)`: None is an `undefined` or `null` stream. */
    method Track(stream: Option<string>, data: Value, net: (string, nat) -> Result<Response, Thrown>)
      returns (r: Result<seq<Sending>, Thrown>)
      requires Valid()
      modifies this, store
      ensures Valid() && exitHandled == old(exitHandled)
      ensures r.Err? <==> stream.None? || data.Undefined? || data.Null?
      ensures r.Err? ==> r.error == StreamOrDataEmpty && store.data == old(store.data) &&
                         store.keys == old(store.keys) && timerSet == old(timerSet) && armed == old(armed)
      ensures r.Ok? ==> store.keys == if stream.value in old(store.data) then old(store.keys) else old(store.keys) + [stream.value]
      ensures r.Ok? && ShouldFlush(Storage.Pending(old(store.data), stream.value) + [data]) ==>
        var s := stream.value;
        var added := Storage.Appended(old(store.data), s, data);
        armed == old(armed) &&
        (s != "" ==> r.value == [Sending(s, added[s], SendFrom(s, net, None, 1))] &&
                     store.data == Storage.Emptied(added, s) && timerSet == old(timerSet)) &&
        (s == "" ==> !timerSet && r.value == FlushedAll(added, store.keys, net) &&
                     store.data == TakenAll(added, store.keys) && store.data.Keys == added.Keys &&
                     forall k :: k in store.data ==> store.data[k] == [])
      ensures r.Ok? && !ShouldFlush(Storage.Pending(old(store.data), stream.value) + [data]) ==>
        r.value == [] && store.data == Storage.Appended(old(store.data), stream.value, data) && timerSet &&
        armed == if old(timerSet) then old(armed) else old(armed) + [stream.value]
    {
      if stream.None? || data.Undefined? || data.Null? {
        return Err(StreamOrDataEmpty);
      }
      var s := stream.value;
      var pending := store.Add(s, data);
      if ShouldFlush(store.Get(s).value) {
        var flushed := Flush(Some(s), None, None, net);
        return Ok(flushed.value);
      }
      if !timerSet {
        timerSet := true;
        armed := armed + [s];
      }
      return Ok([]);
    }

    /** The oldest armed timer callback runs: `flush(stream)`. */
    method TimerFires(net: (string, nat) -> Result<Response, Thrown>) returns (sent: seq<Sending>)
      requires Valid() && armed != []
      modifies this, store
      ensures Valid() && armed == old(armed[1..]) && timerSet == (old(timerSet) && old(armed[0]) != "")
      ensures old(armed[0]) != "" ==>
        var s := old(armed[0]);
        (Storage.Pending(old(store.data), s) == [] ==> sent == [] && store.data == old(store.data)) &&
        (Storage.Pending(old(store.data), s) != [] ==>
           sent == [Sending(s, old(store.data)[s], SendFrom(s, net, None, 1))] &&
           store.data == Storage.Emptied(old(store.data), s))
      ensures old(armed[0]) == "" ==>
        sent == FlushedAll(old(store.data), old(store.keys), net) &&
        store.data == TakenAll(old(store.data), old(store.keys))
    {
      var s := armed[0];
      armed := armed[1..];
      var flushed := Flush(Some(s), None, None, net);
      sent := flushed.value;
    }

    /** `_exitHandler()`, registered only with `flushOnExit`: flushes every
        stream once. */
    method ExitHandler(net: (string, nat) -> Result<Response, Thrown>) returns (sent: Option<seq<Sending>>)
      requires Valid()
      modifies this, store
      ensures Valid() && armed == old(armed)
      ensures sent.Some? <==> config.flushOnExit && !old(exitHandled)
      ensures sent.Some? ==>
        exitHandled && !timerSet && sent.value == FlushedAll(old(store.data), old(store.keys), net) &&
        store.data == TakenAll(old(store.data), old(store.keys))
      ensures sent.None? ==> exitHandled == old(exitHandled) && store.data == old(store.data) && timerSet == old(timerSet)
    {
      if !config.flushOnExit || exitHandled {
        return None;
      }
      exitHandled := true;
      var all := Flush(None, None, None, net);
      return Some(all.value);
    }
  }

  /** `new Error('Stream or data empty')`. */
  const StreamOrDataEmpty := Foreign(Obj([("message", Str("Stream or data empty"))]))

  /** Taking one more key empties just that key. */
  lemma TakenAllStep(m: map<string, seq<Value>>, done: seq<string>, key: string)
    requires key in m && key !in done
    ensures TakenAll(m, done)[key] == m[key]
    ensures TakenAll(m, done + [key]) == TakenAll(m, done)[key := []]
  {
    assert forall k :: k in done + [key] <==> k in done || k == key;
  }

  /** The first `i + 1` keys are the first `i` and then key `i`, which is not
      among them. */
  lemma PrefixStep(keys: seq<string>, i: nat)
    requires i < |keys| && Storage.Distinct(keys)
    ensures keys[..i + 1] == keys[..i] + [keys[i]]
    ensures keys[..i + 1][..i] == keys[..i] && keys[..i + 1][i] == keys[i]
    ensures keys[i] !in keys[..i]
  {
  }

  /** After `flush()`, nothing is pending anywhere. */
  lemma FlushAllEmptiesEverything(m: map<string, seq<Value>>, keys: seq<string>)
    requires forall k :: k in m <==> k in keys
    ensures forall k :: Storage.Pending(TakenAll(m, keys), k) == []
  {
  }
}
