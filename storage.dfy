/**
 * The tracker's in-memory backlog (src/lib/storage/local.class.js): a
 * dictionary from stream name to the array of events not yet sent.
 */
module Storage {
  import opened Utils

  /** The events held for `stream`; a stream that was never added holds none. */
  function Pending<E>(m: map<string, seq<E>>, stream: string): seq<E>
  {
    if stream in m then m[stream] else []
  }

  /** The backlog after `add(stream, x)`: the stream's array, created empty if
      missing, has `x` pushed onto its end. */
  function Appended<E>(m: map<string, seq<E>>, stream: string, x: E): (r: map<string, seq<E>>)
    ensures r.Keys == m.Keys + {stream}
    ensures r[stream] == Pending(m, stream) + [x]
    ensures forall k :: k in m && k != stream ==> r[k] == m[k]
  {
    m[stream := Pending(m, stream) + [x]]
  }

  /** The backlog after `take(stream)`: the stream stays, its array emptied. */
  function Emptied<E>(m: map<string, seq<E>>, stream: string): (r: map<string, seq<E>>)
    requires stream in m
    ensures r.Keys == m.Keys
    ensures r[stream] == []
    ensures forall k :: k in m && k != stream ==> r[k] == m[k]
  {
    m[stream := []]
  }

  /** The backlog after adding each of `xs`, in order, to one stream. */
  function AppendedAll<E>(m: map<string, seq<E>>, stream: string, xs: seq<E>): map<string, seq<E>>
    decreases |xs|
  {
    if xs == [] then m else AppendedAll(Appended(m, stream, xs[0]), stream, xs[1..])
  }

  /** Successive adds accumulate in order on their stream and leave every other
      stream as it was; the stream becomes a key once anything is added. */
  lemma {:induction false} AppendedAllAccumulates<E>(m: map<string, seq<E>>, stream: string, xs: seq<E>)
    ensures Pending(AppendedAll(m, stream, xs), stream) == Pending(m, stream) + xs
    ensures forall k :: k != stream ==> Pending(AppendedAll(m, stream, xs), k) == Pending(m, k)
    ensures AppendedAll(m, stream, xs).Keys == if xs == [] then m.Keys else m.Keys + {stream}
    decreases |xs|
  {
    if xs != [] {
      var m' := Appended(m, stream, xs[0]);
      AppendedAllAccumulates(m', stream, xs[1..]);
      assert [xs[0]] + xs[1..] == xs;
      forall k | k != stream
        ensures Pending(AppendedAll(m, stream, xs), k) == Pending(m, k)
      {
        assert Pending(m', k) == Pending(m, k);
      }
    }
  }

  /** First-in first-out: after a `take`, the next `take` returns exactly the
      events added in between, in the order they were added. */
  lemma TakeReturnsWhatWasAddedSince<E>(m: map<string, seq<E>>, stream: string, xs: seq<E>)
    requires stream in m
    ensures Pending(AppendedAll(Emptied(m, stream), stream, xs), stream) == xs
  {
    AppendedAllAccumulates(Emptied(m, stream), stream, xs);
  }

  /** No add or take ever removes a stream name. */
  lemma KeysNeverShrink<E>(m: map<string, seq<E>>, stream: string, x: E, xs: seq<E>)
    ensures m.Keys <= Appended(m, stream, x).Keys
    ensures stream in m ==> Emptied(m, stream).Keys == m.Keys
    ensures m.Keys <= AppendedAll(m, stream, xs).Keys
  {
    AppendedAllAccumulates(m, stream, xs);
  }

  ghost predicate Distinct<T>(s: seq<T>)
  {
    forall i, j :: 0 <= i < j < |s| ==> s[i] != s[j]
  }

  class LocalStore<E> {
    /** `this.data`: stream name to the events not yet taken. */
    var data: map<string, seq<E>>
    /** The order `Object.keys(this.data)` lists the streams in: insertion order. */
    var streams: seq<string>

    ghost predicate Valid()
      reads this
    {
      Distinct(streams) && forall k :: k in data <==> k in streams
    }

    constructor()
      ensures Valid() && data == map[] && streams == []
    {
      data := map[];
      streams := [];
    }

    /** `add(stream, x)`: pushes `x`, creating the stream's array if missing, and
        returns the stream's array after the push. */
    method Add(stream: string, x: E) returns (r: seq<E>)
      requires Valid()
      modifies this
      ensures Valid()
      ensures data == Appended(old(data), stream, x)
      ensures streams == if stream in old(data) then old(streams) else old(streams) + [stream]
      ensures r == Pending(old(data), stream) + [x]
    {
      if stream !in data {
        data := data[stream := []];
        streams := streams + [stream];
      }
      data := data[stream := data[stream] + [x]];
      r := Get(stream).value;
    }

    /** `get(stream)`: the stream's events, left in place; None stands for
        `undefined` when the stream was never added. */
    function Get(stream: string): (r: Option<seq<E>>)
      reads this
      ensures r.Some? <==> stream in data
      ensures r.Some? ==> r.value == Pending(data, stream)
    {
      if stream in data then Some(data[stream]) else None
    }

    /** `take(stream)`: empties the stream's array and returns everything it held,
        in insertion order; throws when the stream was never added. */
    method Take(stream: string) returns (r: Result<seq<E>, string>)
      requires Valid()
      modifies this
      ensures Valid() && streams == old(streams)
      ensures r.Ok? <==> stream in old(data)
      ensures r.Ok? ==> r.value == old(data)[stream] && data == Emptied(old(data), stream)
      ensures r.Err? ==> r.error == stream + " does not exist in the store" && data == old(data)
    {
      var d := Get(stream);
      if d.None? {
        return Err(stream + " does not exist in the store");
      }
      data := data[stream := []];
      return Ok(d.value);
    }

    /** `isEmpty(stream)`: nothing is pending for the stream, whether or not it
        was ever added. */
    function IsEmpty(stream: string): (b: bool)
      reads this
      ensures b <==> Pending(data, stream) == []
    {
      var d := Get(stream);
      d.None? || |d.value| <= 0
    }

    /** `keys`: every stream ever added, each once, in insertion order. */
    function Keys(): (ks: seq<string>)
      reads this
      requires Valid()
      ensures Distinct(ks)
      ensures forall k :: k in ks <==> k in data
    {
      streams
    }
  }
}
